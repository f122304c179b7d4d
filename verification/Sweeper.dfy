/**
 The reconciliation sweep: a budgeted cursor rotating over the sorted registry,
 with a changed-since anchor two passes deep.
 */
module Sweeper {
  import opened Base
  import opened Ids
  import Registry

  datatype Sweep = Sweep(pos: nat, passStart: u32, prevPassStart: u32)

  const FRESH := Sweep(0, 0, 0)

  /** How far a batch that began at `from` and has spent `spent` on its ids so far extends from i. */
  function BatchEnd(ids: seq<Id>, cost: Id -> int, budget: int, from: nat, i: nat, spent: int): (end: nat)
    requires from <= i <= |ids|
    ensures i <= end <= |ids|
    decreases |ids| - i
  {
    if i < |ids| && (i == from || spent + cost(ids[i]) <= budget)
    then BatchEnd(ids, cost, budget, from, i + 1, spent + cost(ids[i]))
    else i
  }

  datatype Next = Next(sweep: Sweep, batch: seq<Id>, completed: bool)

  /** Where the cursor stands for a snapshot it may have outrun. */
  function Start(s: Sweep, ids: seq<Id>): nat {
    if s.pos >= |ids| then 0 else s.pos
  }

  /** A batch that begins at the top begins a pass: the anchors move one pass on. */
  function Anchored(s: Sweep, ids: seq<Id>, ledger: u32): Sweep {
    if Start(s, ids) == 0 then Sweep(0, ledger, s.passStart) else s
  }

  function NextOf(s: Sweep, ids: seq<Id>, ledger: u32, cost: Id -> int, budget: int): Next {
    if |ids| == 0 then Next(s, [], false)
    else
      var start := Start(s, ids);
      var end := BatchEnd(ids, cost, budget, start, start, 0);
      Next(Anchored(s, ids, ledger).(pos := if end >= |ids| then 0 else end), ids[start..end], end >= |ids|)
  }

  class Sweeper {
    const reg: Registry.Registry
    var pos: nat
    var passStart: u32
    var prevPassStart: u32

    function Value(): Sweep
      reads this
    {
      Sweep(pos, passStart, prevPassStart)
    }

    constructor (reg: Registry.Registry)
      ensures Value() == FRESH && this.reg == reg
    {
      this.reg := reg;
      pos, passStart, prevPassStart := 0, 0, 0;
    }

    /** The next batch whose key cost fits the budget, at least one id of a nonempty registry. */
    method NextBatch(currentLedger: u32, keyCost: Id -> int, budget: int) returns (batch: seq<Id>, completed: bool)
      modifies this
      ensures Next(Value(), batch, completed) ==
          NextOf(old(Value()), SortedIds(reg.escrows), currentLedger, keyCost, budget)
    {
      var ids := reg.Snapshot();
      if |ids| == 0 {
        return [], false;
      }
      if pos >= |ids| {
        pos := 0;
      }
      if pos == 0 {
        prevPassStart := passStart;
        passStart := currentLedger;
      }
      batch := Fill(ids, keyCost, budget);
      completed := pos >= |ids|;
      if completed {
        pos := 0;
      }
    }

    /** Advances the cursor over as many ids as the budget allows, but over one at least. */
    method Fill(ids: seq<Id>, keyCost: Id -> int, budget: int) returns (batch: seq<Id>)
      requires pos <= |ids|
      modifies this`pos
      ensures pos == BatchEnd(ids, keyCost, budget, old(pos), old(pos), 0)
      ensures batch == ids[old(pos)..pos]
    {
      var spent := 0;
      batch := [];
      while pos < |ids|
        invariant old(pos) <= pos <= |ids|
        invariant batch == ids[old(pos)..pos]
        invariant BatchEnd(ids, keyCost, budget, old(pos), old(pos), 0)
               == BatchEnd(ids, keyCost, budget, old(pos), pos, spent)
      {
        var cost := keyCost(ids[pos]);
        if |batch| > 0 && spent + cost > budget {
          break;
        }
        batch := batch + [ids[pos]];
        spent := spent + cost;
        pos := pos + 1;
      }
    }

    function ModifiedSince(): u32
      reads this
    {
      prevPassStart
    }

    method Reset()
      modifies this
      ensures Value() == FRESH
    {
      pos, passStart, prevPassStart := 0, 0, 0;
    }
  }
}
