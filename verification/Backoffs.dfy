/** The backoff between two attempts, in nanoseconds and 64-bit arithmetic. */
module Backoffs {

  const RETRY_BASE_DELAY := 100_000_000
  const RETRY_MAX_DELAY := 2_000_000_000

  // ---- 64-bit shift -------------------------------------------------------

  const TWO64 := 0x1_0000_0000_0000_0000
  const TWO63 := 0x8000_0000_0000_0000

  function Pow2(n: nat): (p: nat)
    ensures p >= 1
  {
    if n == 0 then 1 else 2 * Pow2(n - 1)
  }

  /** The int64 that holds x after overflow. */
  function Wrap64(x: int): (r: int)
    ensures -TWO63 <= r < TWO63
  {
    var m := x % TWO64;
    if m >= TWO63 then m - TWO64 else m
  }

  function ShiftLeft64(x: int, count: nat): int { Wrap64(x * Pow2(count)) }

  /** The exponential delay after the given 1-based attempt, before jitter. */
  function CappedDelay(attempt: nat): (d: int)
    requires attempt >= 1
    ensures 0 <= d <= RETRY_MAX_DELAY
  {
    var delay := ShiftLeft64(RETRY_BASE_DELAY, attempt - 1);
    if delay > RETRY_MAX_DELAY || delay < 0 then RETRY_MAX_DELAY else delay
  }

  function Min(a: int, b: int): int { if a < b then a else b }
  function Max(a: int, b: int): int { if a < b then b else a }

  lemma {:induction false} Pow2Sum(a: nat, b: nat)
    ensures Pow2(a + b) == Pow2(a) * Pow2(b)
  {
    if a > 0 {
      Pow2Sum(a - 1, b);
      assert Pow2(a + b) == 2 * Pow2(a - 1 + b);
    }
  }

  lemma Pow2Anchors()
    ensures Pow2(8) == 256 && Pow2(31) == 0x8000_0000 && Pow2(64) == TWO64
    ensures Pow2(22) == 0x40_0000
  {
    assert Pow2(8) == 256;
    assert Pow2(16) == 65536 by { Pow2Sum(8, 8); }
    assert Pow2(6) == 64;
    assert Pow2(22) == 0x40_0000 by { Pow2Sum(16, 6); }
    assert Pow2(7) == 128;
    assert Pow2(15) == 32768 by { Pow2Sum(8, 7); }
    assert Pow2(31) == 0x8000_0000 by { Pow2Sum(16, 15); }
    assert Pow2(32) == 0x1_0000_0000;
    Pow2Sum(32, 32);
  }

  lemma {:induction false} Pow2Monotone(a: nat, b: nat)
    requires a <= b
    ensures Pow2(a) <= Pow2(b)
    decreases b
  {
    if a < b { Pow2Monotone(a, b - 1); }
  }

  /** Multiplying by a common factor commutes with reduction. */
  lemma ModScale(c: nat, x: nat, m: nat)
    requires c > 0 && m > 0
    ensures (c * x) % (c * m) == c * (x % m)
  {
    var q, r := x / m, x % m;
    assert c * x == (c * m) * q + c * r by { assert x == m * q + r; }
    assert 0 <= c * r < c * m;
    DivModUnique(c * x, c * m, q, c * r);
  }

  lemma DivModUnique(x: nat, m: nat, q: nat, r: nat)
    requires m > 0 && r < m && x == m * q + r
    ensures x % m == r
  {
    var q', r' := x / m, x % m;
    assert m * (q' - q) == r - r';
    assert q' - q >= 1 ==> m * (q' - q) >= m;
    assert q - q' >= 1 ==> m * (q - q') >= m;
    assert m * (q - q') == -(m * (q' - q));
  }

  lemma OddRemainder(x: nat, half: nat)
    requires x % 2 == 1 && half >= 1
    ensures x % (2 * half) >= 1
  {
    var q, r := x / (2 * half), x % (2 * half);
    assert x == (2 * half) * q + r;
    assert (2 * half) * q == 2 * (half * q);
  }

  lemma Wrap64AboveCap(x: int)
    requires x % TWO64 > RETRY_MAX_DELAY
    ensures Wrap64(x) < 0 || Wrap64(x) > RETRY_MAX_DELAY
  {
  }

  lemma ShiftAsMultiple(count: nat)
    requires count <= 55
    ensures (RETRY_BASE_DELAY * Pow2(count)) % TWO64 == Pow2(8 + count) * (390625 % Pow2(56 - count))
  {
    Pow2Anchors();
    Pow2Sum(8, count);
    Pow2Sum(8 + count, 56 - count);
    ModScale(Pow2(8 + count), 390625, Pow2(56 - count));
    assert RETRY_BASE_DELAY * Pow2(count) == Pow2(8 + count) * 390625;
  }

  lemma AtLeastMultiple(c: nat, k: nat, floor: nat)
    requires k >= 1 && c >= floor
    ensures c * k >= floor
  {
  }

  lemma {:induction false} ResidueAboveCap(count: nat)
    requires 23 <= count <= 55
    ensures (RETRY_BASE_DELAY * Pow2(count)) % TWO64 > RETRY_MAX_DELAY
  {
    var c, rest := Pow2(8 + count), 390625 % Pow2(56 - count);
    assert c >= 0x8000_0000 by { Pow2Anchors(); Pow2Monotone(31, 8 + count); }
    assert rest >= 1 by { OddRemainder(390625, Pow2(55 - count)); }
    AtLeastMultiple(c, rest, 0x8000_0000);
    ShiftAsMultiple(count);
  }

  /** From the 24th to the 56th attempt the shift may overflow, but what is left is a nonzero
      multiple of 2^31: as an int64 it is negative or far above the cap. */
  lemma OverflowStaysAboveCap(count: nat)
    requires 23 <= count <= 55
    ensures var d := ShiftLeft64(RETRY_BASE_DELAY, count); d < 0 || d > RETRY_MAX_DELAY
  {
    ResidueAboveCap(count);
    Wrap64AboveCap(RETRY_BASE_DELAY * Pow2(count));
  }

  /** Past the 56th attempt every set bit has been shifted out. */
  lemma ShiftedOut(count: nat)
    requires count >= 56
    ensures ShiftLeft64(RETRY_BASE_DELAY, count) == 0
  {
    Pow2Anchors();
    Pow2Sum(8, count);
    Pow2Sum(64, count - 56);
    var k := 390625 * Pow2(count - 56);
    assert RETRY_BASE_DELAY * Pow2(count) == 390625 * Pow2(8 + count);
    assert RETRY_BASE_DELAY * Pow2(count) == TWO64 * k;
    DivModUnique(TWO64 * k, TWO64, k, 0);
  }

  lemma {:induction false} SmallShift(count: nat)
    requires count <= 22
    ensures ShiftLeft64(RETRY_BASE_DELAY, count) == RETRY_BASE_DELAY * Pow2(count) >= RETRY_BASE_DELAY
  {
    assert Pow2(count) <= 0x40_0000 by { Pow2Anchors(); Pow2Monotone(count, 22); }
    var x := RETRY_BASE_DELAY * Pow2(count);
    assert 0 <= x < TWO63;
  }

  lemma {:induction false} LargeIdeal(count: nat)
    requires count >= 23
    ensures RETRY_BASE_DELAY * Pow2(count) > RETRY_MAX_DELAY
  {
    assert Pow2(count) >= 0x40_0000 by { Pow2Anchors(); Pow2Monotone(22, count); }
  }

  /** The shifted, overflow-checked, capped delay is the ideal min(100ms * 2^(n-1), 2s) for
      exactly the first 56 attempts. From the 57th on it is zero: the client stops waiting. */
  lemma {:induction false} CappedDelayIsIdeal(attempt: nat)
    requires attempt >= 1
    ensures CappedDelay(attempt) == Min(RETRY_BASE_DELAY * Pow2(attempt - 1), RETRY_MAX_DELAY) <==> attempt <= 56
    ensures attempt > 56 ==> CappedDelay(attempt) == 0
  {
    var k := attempt - 1;
    if k <= 22 {
      SmallShift(k);
    } else {
      LargeIdeal(k);
      if k <= 55 { OverflowStaysAboveCap(k); } else { ShiftedOut(k); }
    }
  }

  lemma CappedDelayNondecreasing(a: nat, b: nat)
    requires 1 <= a <= b <= 56
    ensures CappedDelay(a) <= CappedDelay(b)
  {
    CappedDelayIsIdeal(a);
    CappedDelayIsIdeal(b);
    Pow2Monotone(a - 1, b - 1);
  }

  // ---- jitter and Retry-After ---------------------------------------------

  /** d scaled by 1 + (frac - 0.5) * 0.5 and truncated; frac is the random draw in [0, 1). */
  function Jitter(d: int, frac: real): int {
    if d <= 0 then 0
    else
      var out := (d as real * (1.0 + (frac - 0.5) * 0.5)).Floor;
      if out < 0 then 0 else out
  }

  lemma ScaledWithinQuarter(x: real, scale: real)
    requires x >= 0.0 && 0.75 <= scale <= 1.25
    ensures x * 0.75 <= x * scale <= x * 1.25
  {
  }

  lemma FloorWithinQuarter(d: int, x: real)
    requires d >= 0 && d as real * 0.75 <= x <= d as real * 1.25
    ensures 3 * d / 4 <= x.Floor <= 5 * d / 4
  {
  }

  lemma JitterWithinQuarter(d: int, frac: real)
    requires d >= 0 && 0.0 <= frac < 1.0
    ensures 3 * d / 4 <= Jitter(d, frac) <= 5 * d / 4
  {
    var scale := 1.0 + (frac - 0.5) * 0.5;
    ScaledWithinQuarter(d as real, scale);
    FloorWithinQuarter(d, d as real * scale);
  }

  function Backoff(attempt: nat, retryAfter: nat, frac: real): int
    requires attempt >= 1
  {
    var delay := Jitter(CappedDelay(attempt), frac);
    if retryAfter > 0 && retryAfter > delay then retryAfter else delay
  }

  const MAX_OWN_DELAY := 2_500_000_000

  /** Never earlier than the server asked, never later than both guidances allow. */
  lemma BackoffBounds(attempt: nat, retryAfter: nat, frac: real)
    requires attempt >= 1 && 0.0 <= frac < 1.0
    ensures retryAfter <= Backoff(attempt, retryAfter, frac) <= Max(retryAfter, MAX_OWN_DELAY)
    ensures retryAfter < 3 * CappedDelay(attempt) / 4 ==>
              3 * CappedDelay(attempt) / 4 <= Backoff(attempt, retryAfter, frac) <= 5 * CappedDelay(attempt) / 4
  {
    JitterWithinQuarter(CappedDelay(attempt), frac);
  }

  /** The client's waiting rule for a given stream of random draws. */
  function OwnWait(frac: nat -> real): (nat, nat) -> int {
    (attempt: nat, retryAfter: nat) => if attempt >= 1 then Backoff(attempt, retryAfter, frac(attempt)) else 0
  }
}
