/** Capped exponential backoff, shared by the ledger fetch and the publish retry. */
module Backoff {
  import opened Base

  /** Durations are in nanoseconds, as Go's time.Duration is. */
  const SECOND: int := 1_000_000_000

  function Pow2(k: nat): (r: nat)
    ensures r >= 1
  {
    if k == 0 then 1 else 2 * Pow2(k - 1)
  }

  /** The k-th wait, counted from 0: min(2^k s, cap). */
  function Wait(k: nat, cap: int): int {
    Min(Pow2(k) * SECOND, cap)
  }

  /** The loops' update: double below the cap, never past it. */
  function Doubled(backoff: int, cap: int): int {
    if backoff < cap then Min(2 * backoff, cap) else backoff
  }

  lemma DoubledIsNextWait(k: nat, cap: int)
    requires cap >= 0
    ensures Doubled(Wait(k, cap), cap) == Wait(k + 1, cap)
  {
    assert Pow2(k + 1) == 2 * Pow2(k);
  }

  /** The waits of a run that had to wait n times. */
  function Waits(n: nat, cap: int): (r: seq<int>)
    ensures |r| == n
    ensures forall k :: 0 <= k < n ==> r[k] == Wait(k, cap)
  {
    if n == 0 then [] else Waits(n - 1, cap) + [Wait(n - 1, cap)]
  }
}
