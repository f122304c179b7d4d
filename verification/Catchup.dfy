/** The catch-up policy: when to defer state, when to persist the cursor, when a chain continues. */
module Catchup {
  import opened Base
  import opened Backoff
  import opened Ids
  import opened StateStore

  const CATCH_UP_MIN_AGE: int := 1200 * SECOND
  const SWEEP_MAX_LEDGER_AGE: int := 30 * SECOND
  const CHECKPOINT_INTERVAL: u32 := 100

  predicate CatchingUp(now: int, closedAt: int) {
    now - closedAt > CATCH_UP_MIN_AGE
  }

  predicate SweepAllowed(now: int, closedAt: int) {
    now - closedAt <= SWEEP_MAX_LEDGER_AGE
  }

  predicate ShouldCheckpoint(catchingUp: bool, isFinal: bool, currentLedger: u32, lastCheckpoint: u32) {
    !catchingUp || isFinal || Sub32(currentLedger, lastCheckpoint) >= CHECKPOINT_INTERVAL
  }

  /** The ledger's parent is the one expected; 0 means nothing is expected. */
  predicate Descends(expected: Hash, parent: Hash) {
    expected == 0 || parent == expected
  }

  /** The deferred escrows and the active ones, merged and sorted; the caller's set is emptied. */
  method DrainPending(pending: set<Id>, active: seq<Id>) returns (ids: seq<Id>, left: set<Id>)
    ensures ids == SortedIds(pending + Elements(active))
    ensures left == {}
  {
    ids := SortIds(pending + (set id | id in active));
    left := {};
  }
}
