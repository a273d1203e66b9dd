/** The deterministic retry delay. */
module Backoff {
  const DEFAULT_MAX_ATTEMPTS: nat := 3
  const BASE_MS: nat := 500
  const MAX_MS: nat := 30_000
  const MAX_SHIFT: nat := 16

  const FNV_OFFSET: nat := 0xcbf29ce484222325
  const FNV_PRIME: nat := 0x100000001b3

  function Xor8(a: nat, b: nat): nat
    requires a < 256 && b < 256
  {
    ((a as bv8) ^ (b as bv8)) as nat
  }

  function Byte(v: nat, i: nat): nat {
    if i == 0 then v % 256 else Byte(v / 256, i - 1)
  }

  /** FNV-1a over the first n bytes of the id (little-endian) and of the attempt. */
  function Hash(id: nat, attempt: nat, n: nat): (h: nat)
    requires n <= 12
  {
    if n == 0 then FNV_OFFSET
    else
      var h := Hash(id, attempt, n - 1);
      var x := if n <= 8 then Byte(id, n - 1) % 256 else Byte(attempt, n - 9) % 256;
      (h - h % 256 + Xor8(h % 256, x)) * FNV_PRIME % 0x1_0000_0000_0000_0000
  }

  function Pow2(n: nat): nat {
    if n == 0 then 1 else 2 * Pow2(n - 1)
  }

  lemma {:induction false} Pow2Positive(n: nat)
    ensures Pow2(n) >= 1
  {
    if n > 0 { Pow2Positive(n - 1); }
  }

  /** Exponential with a jitter fixed by (id, attempt), between half a second and thirty. */
  function BackoffMs(id: nat, attempt: nat): (d: nat)
    ensures BASE_MS <= d <= MAX_MS
  {
    var shift := if attempt > MAX_SHIFT then MAX_SHIFT else attempt;
    Pow2Positive(shift);
    var full := BASE_MS * Pow2(shift);
    var base := if full > MAX_MS then MAX_MS else full;
    var d := base + Hash(id, attempt, 12) % (base / 4 + 1);
    if d > MAX_MS then MAX_MS else d
  }

  /** The base doubles from half a second and jitter adds at most a quarter of it; from the
      sixth attempt on the delay is thirty seconds. */
  lemma Schedule(id: nat, attempt: nat)
    ensures var d := BackoffMs(id, attempt);
            && (attempt == 0 ==> 500 <= d <= 625) && (attempt == 1 ==> 1000 <= d <= 1250)
            && (attempt == 2 ==> 2000 <= d <= 2500) && (attempt == 3 ==> 4000 <= d <= 5000)
            && (attempt == 4 ==> 8000 <= d <= 10000) && (attempt == 5 ==> 16000 <= d <= 20000)
            && (attempt >= 6 ==> d == 30000)
  {
    assert Pow2(1) == 2 && Pow2(2) == 4 && Pow2(3) == 8 && Pow2(4) == 16 && Pow2(5) == 32 && Pow2(6) == 64;
    if attempt >= 6 { Pow2Grows(6, if attempt > MAX_SHIFT then MAX_SHIFT else attempt); }
  }

  lemma {:induction false} Pow2Grows(m: nat, n: nat)
    requires m <= n
    ensures Pow2(m) <= Pow2(n)
    decreases n
  {
    if m < n { Pow2Grows(m, n - 1); }
  }

  /** A later attempt never waits less, whichever the messages. */
  lemma NeverShorter(id: nat, other: nat, a: nat, b: nat)
    requires a < b
    ensures BackoffMs(id, a) <= BackoffMs(other, b)
  {
    Schedule(id, a);
    Schedule(other, b);
  }
}
