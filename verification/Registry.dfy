/** The in-memory authority for escrow identity: tracked contracts and tombstones. */
module Registry {
  import opened Ids

  /** A registry's contents as a value. */
  datatype Members = Members(tracked: set<Id>, removed: set<Id>)

  const NOBODY := Members({}, {})

  /** Discovery: adds an approved contract unless it is tombstoned. */
  function Registered(m: Members, id: Id, approved: bool): Members {
    if id == "" || !approved || id in m.removed then m
    else m.(tracked := m.tracked + {id})
  }

  /** Bulk add from a trusted list; tombstoned and empty ids are skipped. */
  function Seeded(m: Members, ids: seq<Id>): Members {
    m.(tracked := m.tracked + set id | id in ids && id != "" && id !in m.removed)
  }

  /** Operator intent: clears the tombstone and tracks. */
  function Tracked(m: Members, id: Id): Members {
    if id == "" then m else Members(m.tracked + {id}, m.removed - {id})
  }

  /** Operator removal: untracks and leaves a tombstone, known id or not. */
  function Tombstoned(m: Members, id: Id): Members {
    if id == "" then m else Members(m.tracked - {id}, m.removed + {id})
  }

  /** Restores tombstones at boot. */
  function SeededRemoved(m: Members, ids: seq<Id>): Members {
    var gone := set id | id in ids && id != "";
    Members(m.tracked - gone, m.removed + gone)
  }

  ghost predicate Disjoint(m: Members) {
    m.tracked !! m.removed
  }

  /** Everything that can ever change a registry. */
  datatype Op =
    | Register(id: Id, approved: bool)
    | Seed(ids: seq<Id>)
    | Track(id: Id)
    | Remove(id: Id)
    | SeedRemoved(ids: seq<Id>)

  function Apply(m: Members, op: Op): Members {
    match op
    case Register(id, approved) => Registered(m, id, approved)
    case Seed(ids) => Seeded(m, ids)
    case Track(id) => Tracked(m, id)
    case Remove(id) => Tombstoned(m, id)
    case SeedRemoved(ids) => SeededRemoved(m, ids)
  }

  function ApplyAll(m: Members, ops: seq<Op>): Members
    decreases |ops|
  {
    if |ops| == 0 then m else ApplyAll(Apply(m, ops[0]), ops[1..])
  }

  /** Under every order of operations no contract is both tracked and tombstoned. */
  lemma {:induction false} DisjointAlways(m: Members, ops: seq<Op>)
    requires Disjoint(m)
    ensures Disjoint(ApplyAll(m, ops))
    decreases |ops|
  {
    if |ops| > 0 {
      assert Disjoint(Apply(m, ops[0]));
      DisjointAlways(Apply(m, ops[0]), ops[1..]);
    }
  }

  /** A tombstone survives every operation but an explicit Track of that very id. */
  lemma {:induction false} TombstonePermanent(m: Members, ops: seq<Op>, id: Id)
    requires Disjoint(m) && id in m.removed
    requires forall i :: 0 <= i < |ops| ==> ops[i] != Track(id)
    ensures id in ApplyAll(m, ops).removed && id !in ApplyAll(m, ops).tracked
    decreases |ops|
  {
    if |ops| > 0 {
      var next := Apply(m, ops[0]);
      assert ops[0] != Track(id);
      DisjointAlways(m, [ops[0]]);
      assert ApplyAll(m, [ops[0]]) == ApplyAll(next, []);
      TombstonePermanent(next, ops[1..], id);
    }
  }

  /** Only removals, tombstone restores and nothing else ever shrink the tracked set. */
  lemma {:induction false} TrackedGrows(m: Members, ops: seq<Op>, id: Id)
    requires id in m.tracked
    requires forall i :: 0 <= i < |ops| ==>
      ops[i] != Remove(id) && (ops[i].SeedRemoved? ==> id !in ops[i].ids)
    ensures id in ApplyAll(m, ops).tracked
    decreases |ops|
  {
    if |ops| > 0 {
      assert ops[0] != Remove(id);
      TrackedGrows(Apply(m, ops[0]), ops[1..], id);
    }
  }

  class Registry {
    const approved: set<string>
    var escrows: set<Id>
    var removed: set<Id>

    function Value(): Members
      reads this
    {
      Members(escrows, removed)
    }

    constructor (approved: set<string>)
      ensures Value() == NOBODY && this.approved == approved
    {
      this.approved := approved;
      escrows := {};
      removed := {};
    }

    method Register(contractID: Id, wasmHash: string) returns (added: bool)
      modifies this
      ensures Value() == Registered(old(Value()), contractID, wasmHash in approved)
      ensures added == (Value() != old(Value()))
    {
      if contractID == "" || wasmHash !in approved {
        return false;
      }
      if contractID in removed {
        return false;
      }
      if contractID in escrows {
        assert escrows + {contractID} == escrows;
        return false;
      }
      escrows := escrows + {contractID};
      return true;
    }

    method Seed(contractIDs: seq<Id>)
      modifies this
      ensures Value() == Seeded(old(Value()), contractIDs)
    {
      for i := 0 to |contractIDs|
        invariant Value() == Seeded(old(Value()), contractIDs[..i])
      {
        var id := contractIDs[i];
        assert contractIDs[..i + 1] == contractIDs[..i] + [id];
        if id == "" {
          continue;
        }
        if id in removed {
          continue;
        }
        escrows := escrows + {id};
      }
      assert contractIDs[..|contractIDs|] == contractIDs;
    }

    method Track(contractID: Id) returns (added: bool)
      modifies this
      ensures Value() == Tracked(old(Value()), contractID)
      ensures added == (contractID != "" && contractID !in old(escrows))
      ensures old(Disjoint(Value())) && !added ==> Value() == old(Value())
    {
      if contractID == "" {
        return false;
      }
      removed := removed - {contractID};
      if contractID in escrows {
        assert escrows + {contractID} == escrows;
        return false;
      }
      escrows := escrows + {contractID};
      return true;
    }

    method Remove(contractID: Id) returns (existed: bool)
      modifies this
      ensures Value() == Tombstoned(old(Value()), contractID)
      ensures existed == (contractID != "" && contractID in old(escrows))
    {
      if contractID == "" {
        return false;
      }
      existed := contractID in escrows;
      escrows := escrows - {contractID};
      removed := removed + {contractID};
    }

    method SeedRemoved(contractIDs: seq<Id>)
      modifies this
      ensures Value() == SeededRemoved(old(Value()), contractIDs)
    {
      for i := 0 to |contractIDs|
        invariant Value() == SeededRemoved(old(Value()), contractIDs[..i])
      {
        var id := contractIDs[i];
        assert contractIDs[..i + 1] == contractIDs[..i] + [id];
        if id != "" {
          removed := removed + {id};
          escrows := escrows - {id};
        }
      }
      assert contractIDs[..|contractIDs|] == contractIDs;
    }

    predicate IsEscrow(contractID: Id)
      reads this
    {
      contractID != "" && contractID in escrows
    }

    function Size(): nat
      reads this
    {
      |escrows|
    }

    method Snapshot() returns (out: seq<Id>)
      ensures out == SortedIds(escrows)
    {
      out := SortIds(escrows);
    }

    method RemovedSnapshot() returns (out: seq<Id>)
      ensures out == SortedIds(removed)
    {
      out := SortIds(removed);
    }
  }
}
