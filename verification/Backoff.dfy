/** Capped exponential backoff over the reals: the loop that stops early, and the formula it stands for. */
module Backoff {

  datatype RetryPolicy = RetryPolicy(base: int, multiplier: real, cap: int)

  /** What the API accepts. */
  predicate Accepted(p: RetryPolicy) { p.base >= 0 && p.cap >= 0 && p.multiplier >= 1.0 }

  function Power(m: real, n: nat): real { if n == 0 then 1.0 else m * Power(m, n - 1) }

  /** llround: to the nearest integer, halves away from zero. */
  function Round(x: real): int { if x >= 0.0 then (x + 0.5).Floor else -((0.5 - x).Floor) }

  function Min(a: int, b: int): int { if a < b then a else b }

  function Max(a: int, b: int): int { if a > b then a else b }

  function Uncapped(p: RetryPolicy, retries: nat): real { p.base as real * Power(p.multiplier, retries) }

  /** base * multiplier^(attempt - 1), rounded and capped; attempts below 1 count as the first. */
  function Delay(p: RetryPolicy, attempt: int): int {
    Min(Round(Uncapped(p, Max(attempt, 1) - 1)), p.cap)
  }

  lemma {:induction false} PowerGrows(m: real, a: nat, b: nat)
    requires m >= 1.0 && a <= b
    ensures 1.0 <= Power(m, a) <= Power(m, b)
    decreases b
  {
    if a < b {
      PowerGrows(m, a, b - 1);
      Scaled(1.0, m, Power(m, b - 1));
    } else if b > 0 {
      PowerGrows(m, 0, b - 1);
      Scaled(1.0, m, Power(m, b - 1));
    }
  }

  lemma Scaled(x: real, y: real, z: real)
    requires x <= y && z >= 0.0
    ensures x * z <= y * z
  {
    assert (y - x) * z >= 0.0;
  }

  lemma RoundGrows(x: real, y: real)
    requires x <= y
    ensures Round(x) <= Round(y)
  {
  }

  /** The nearest integer; of two that are as near, the one away from zero. */
  lemma RoundIsNearest(x: real)
    ensures -0.5 <= Round(x) as real - x <= 0.5
    ensures Round(x) as real - x == 0.5 ==> x > 0.0
    ensures Round(x) as real - x == -0.5 ==> x < 0.0
  {
  }

  /** The delays are those of a geometric sequence that starts at the base, rounded and capped. */
  lemma {:induction false} DelayIsGeometric(p: RetryPolicy, d: seq<real>)
    requires d != [] && d[0] == p.base as real
    requires forall k :: 0 <= k < |d| - 1 ==> d[k + 1] == d[k] * p.multiplier
    ensures d[|d| - 1] == Uncapped(p, |d| - 1)
    ensures Delay(p, |d|) == Min(Round(d[|d| - 1]), p.cap) &&
            (|d| == 1 ==> forall a | a < 1 :: Delay(p, a) == Delay(p, 1))
  {
    hide Round;
    var n := |d| - 1;
    if n > 0 {
      DelayIsGeometric(p, d[..n]);
      assert d[n - 1] == d[..n][n - 1] && d[n] == d[n - 1 + 1];
      Reassociate(p.base as real, p.multiplier, Power(p.multiplier, n - 1));
    }
  }

  /** A value at or above an integer rounds to at least that integer. */
  lemma RoundAbove(x: real, n: int)
    requires x >= n as real >= 0.0
    ensures Round(x) >= n
  {
    assert Round(n as real) == n;
    RoundGrows(n as real, x);
  }

  lemma UncappedGrows(p: RetryPolicy, i: nat, j: nat)
    requires Accepted(p) && i <= j
    ensures 0.0 <= Uncapped(p, i) <= Uncapped(p, j)
  {
    PowerGrows(p.multiplier, i, j);
    Scaled(Power(p.multiplier, i), Power(p.multiplier, j), p.base as real);
    Scaled(0.0, p.base as real, Power(p.multiplier, i));
  }

  /** The formula never falls as attempts go on, and stays between zero and the cap. */
  lemma DelayGrows(p: RetryPolicy, a: int, b: int)
    requires Accepted(p) && a <= b
    ensures 0 <= Delay(p, a) <= Delay(p, b) <= p.cap
  {
    hide Uncapped, Round;
    var i, j := Max(a, 1) - 1, Max(b, 1) - 1;
    UncappedGrows(p, i, j);
    RoundGrows(Uncapped(p, i), Uncapped(p, j));
    RoundAbove(Uncapped(p, i), 0);
  }

  /** The loop, without jitter: it leaves as soon as the cap is reached, and still computes the formula. */
  method DelayAfterAttempt(p: RetryPolicy, failedAttempt: int) returns (delay: int)
    ensures 0 <= delay <= Max(p.cap, 0)
    ensures Accepted(p) ==> delay == Delay(p, failedAttempt)
  {
    var attempt := Max(failedAttempt, 1);
    var d := p.base as real;
    var i := 1;
    var reached := false;
    while i < attempt && !reached
      invariant 1 <= i <= attempt
      invariant d == Uncapped(p, i - 1)
      invariant reached ==> d >= p.cap as real
      decreases attempt - i, !reached
    {
      d := d * p.multiplier;
      i := i + 1;
      Reassociate(p.base as real, p.multiplier, Power(p.multiplier, i - 2));
      if d >= p.cap as real { reached := true; }
    }
    if Accepted(p) { CapReached(p, i, attempt, d); }
    delay := Round(d);
    delay := Min(delay, p.cap);
    delay := Max(delay, 0);
  }

  lemma Reassociate(a: real, m: real, q: real)
    ensures a * q * m == a * (m * q)
  {
  }

  /** Once the cap is reached, further factors change nothing. */
  lemma CapReached(p: RetryPolicy, i: int, attempt: int, d: real)
    requires Accepted(p) && 1 <= i <= attempt && d == Uncapped(p, i - 1)
    requires i == attempt || d >= p.cap as real
    ensures 0 <= Min(Round(d), p.cap) == Delay(p, attempt)
  {
    hide Uncapped, Round;
    DelayGrows(p, i, attempt);
    if i < attempt { RoundAbove(d, p.cap); }
  }

  /** The delay drawn for a random number. */
  function Draw(delay: nat, random: nat): nat { random % (delay + 1) }

  /** Every delay from zero to the full one is drawn, and all equally often: once in `delay + 1` consecutive numbers. */
  lemma DrawIsEven(delay: nat, q: nat, v: nat)
    requires v <= delay
    ensures Draw(delay, q * (delay + 1) + v) == v
  {
    var a := q * (delay + 1) + v;
    OneRemainder(delay + 1, q, v, a / (delay + 1), a % (delay + 1));
  }

  lemma OneRemainder(n: nat, q: int, v: nat, p: int, r: nat)
    requires v < n && r < n && q * n + v == p * n + r
    ensures v == r
  {
    if q > p {
      Apart(n, q, p);
    } else if q < p {
      Apart(n, p, q);
    }
  }

  lemma {:induction false} Apart(n: nat, q: int, p: int)
    requires q > p
    ensures q * n >= p * n + n
    decreases q - p
  {
    assert q * n == (q - 1) * n + n;
    if q - 1 > p { Apart(n, q - 1, p); }
  }

  /** With jitter the delay is drawn from zero to the full delay. */
  method Jittered(delay: int, random: nat) returns (r: int)
    requires delay >= 0
    ensures 0 <= r <= delay && r == Draw(delay, random)
  {
    r := if delay > 0 then random % (delay + 1) else delay;
  }
}
