/**
 The state detector: reads each escrow's current entry over a request-capped
 RPC, through a cache of the one key that answered last time, and judges who
 is gone.
 */
module Detector {
  import opened Base
  import opened Ids
  import opened Envelopes
  import Registry
  import Facts

  // ---- The RPC surface -------------------------------------------------------------------

  datatype Shape = VecPersistent | SymPersistent | VecTemporary | Instance

  /** A ledger key as text; every text that is no escrow's candidate key is an OtherKey. */
  datatype Key = Candidate(id: Id, shape: Shape) | OtherKey(text: string)

  datatype Body = Undecodable | NotContractData | ContractData(contract: Id, instanceKey: bool)

  /** One entry of an answer; the echoed request key is optional on the wire. */
  datatype Entry = Entry(body: Body, echo: Option<Key>, raw: string, lastModified: u32)

  /** What the RPC answers to its n-th request, with None for an error. */
  type Rpc = (nat, seq<Key>) -> Option<seq<Entry>>

  const MAX_LEDGER_ENTRY_KEYS: nat := 200
  const CANDIDATE_KEYS_PER_ESCROW: nat := 4
  const REMOVAL_GUARD_MIN_BATCH: nat := 10

  function Candidates(id: Id): seq<Key> {
    [Candidate(id, VecPersistent), Candidate(id, SymPersistent), Candidate(id, VecTemporary), Candidate(id, Instance)]
  }

  // ---- Asking ---------------------------------------------------------------------------------

  type Learned = map<Id, Key>

  function KeysFor(learned: Learned, isAddress: string -> bool, id: Id): seq<Key> {
    if id in learned then [learned[id]] else if isAddress(id) then Candidates(id) else []
  }

  function AllKeys(learned: Learned, isAddress: string -> bool, ids: seq<Id>): seq<Key> {
    if |ids| == 0 then []
    else AllKeys(learned, isAddress, ids[..|ids| - 1]) + KeysFor(learned, isAddress, ids[|ids| - 1])
  }

  /** The ids that actually go on the wire: one whose key cannot be built is never asked about. */
  function Asked(learned: Learned, isAddress: string -> bool, ids: seq<Id>): seq<Id> {
    if |ids| == 0 then []
    else
      var init := Asked(learned, isAddress, ids[..|ids| - 1]);
      var id := ids[|ids| - 1];
      if id in learned || isAddress(id) then init + [id] else init
  }

  function Chunks(keys: seq<Key>, size: nat): (chunks: seq<seq<Key>>)
    requires size > 0
    ensures forall c :: c in chunks ==> |c| <= size
    decreases |keys|
  {
    if |keys| <= size then [keys] else [keys[..size]] + Chunks(keys[size..], size)
  }

  /** The merged entries of a list of requests, or None, and the number of the next request. */
  datatype Answer = Answer(entries: Option<seq<Entry>>, calls: nat)

  function AskAll(rpc: Rpc, n: nat, chunks: seq<seq<Key>>): (a: Answer)
    ensures n <= a.calls <= n + |chunks|
    decreases |chunks|
  {
    if |chunks| == 0 then Answer(Some([]), n)
    else
      match rpc(n, chunks[0])
      case None => Answer(None, n + 1)
      case Some(es) => Prepend(es, AskAll(rpc, n + 1, chunks[1..]))
  }

  function Prepend(es: seq<Entry>, a: Answer): Answer {
    if a.entries.None? then a else a.(entries := Some(es + a.entries.value))
  }

  function Query(rpc: Rpc, n: nat, learned: Learned, isAddress: string -> bool, ids: seq<Id>): Answer {
    var keys := AllKeys(learned, isAddress, ids);
    if |keys| == 0 then Answer(Some([]), n) else AskAll(rpc, n, Chunks(keys, MAX_LEDGER_ENTRY_KEYS))
  }

  // ---- Reading answers ---------------------------------------------------------------------------

  predicate Concerns(e: Entry, tracked: set<Id>, id: Id) {
    e.body.ContractData? && e.body.contract == id && Facts.Known(tracked, id)
  }

  /** One entry per tracked escrow: the first dedicated data entry, else the last instance entry. */
  function Picks(entries: seq<Entry>, tracked: set<Id>): map<Id, Entry> {
    if |entries| == 0 then map[]
    else Pick(Picks(entries[..|entries| - 1], tracked), entries[|entries| - 1], tracked)
  }

  function Pick(picks: map<Id, Entry>, e: Entry, tracked: set<Id>): map<Id, Entry> {
    if !e.body.ContractData? || !Facts.Known(tracked, e.body.contract) then picks
    else
      var id := e.body.contract;
      if id in picks && picks[id].body.ContractData? && !picks[id].body.instanceKey then picks else picks[id := e]
  }

  function Updated(id: Id, e: Entry, ledger: u32, closedAt: int): StateChange {
    StateChange(id, UPDATED, ledger, closedAt, e.raw, e.lastModified)
  }

  function Removal(id: Id, ledger: u32, closedAt: int): StateChange {
    StateChange(id, REMOVED, ledger, closedAt, "", 0)
  }

  function ChangesFor(picks: map<Id, Entry>, ids: seq<Id>, ledger: u32, closedAt: int): seq<StateChange> {
    if |ids| == 0 then []
    else
      var init := ChangesFor(picks, ids[..|ids| - 1], ledger, closedAt);
      var id := ids[|ids| - 1];
      if id in picks then init + [Updated(id, picks[id], ledger, closedAt)] else init
  }

  /** One change per pick, in id order. */
  ghost function Build(picks: map<Id, Entry>, ledger: u32, closedAt: int): seq<StateChange> {
    ChangesFor(picks, SortedIds(picks.Keys), ledger, closedAt)
  }

  /** Remembers the echoed key of each listed pick: it is that escrow's storage shape. */
  function Learn(learned: Learned, picks: map<Id, Entry>, ids: seq<Id>): Learned {
    if |ids| == 0 then learned
    else
      var init := Learn(learned, picks, ids[..|ids| - 1]);
      var id := ids[|ids| - 1];
      if id in picks && picks[id].echo.Some? then init[id := picks[id].echo.value] else init
  }

  function LearnedAfter(learned: Learned, picks: map<Id, Entry>): Learned {
    learned + map id | id in picks && picks[id].echo.Some? :: picks[id].echo.value
  }

  lemma {:induction false} LearnPointwise(learned: Learned, picks: map<Id, Entry>, ids: seq<Id>, id: Id)
    ensures id in Learn(learned, picks, ids) <==> id in learned || (id in ids && id in picks && picks[id].echo.Some?)
    ensures id in Learn(learned, picks, ids) ==>
      Learn(learned, picks, ids)[id] ==
        if id in ids && id in picks && picks[id].echo.Some? then picks[id].echo.value else learned[id]
  {
    if |ids| > 0 {
      var n := |ids| - 1;
      assert ids == ids[..n] + [ids[n]];
      LearnPointwise(learned, picks, ids[..n], id);
    }
  }

  lemma LearnAll(learned: Learned, picks: map<Id, Entry>, ids: seq<Id>)
    requires forall id :: id in ids <==> id in picks
    ensures Learn(learned, picks, ids) == LearnedAfter(learned, picks)
  {
    forall id
      ensures id in Learn(learned, picks, ids) <==> id in LearnedAfter(learned, picks)
      ensures id in Learn(learned, picks, ids) ==> Learn(learned, picks, ids)[id] == LearnedAfter(learned, picks)[id]
    {
      LearnPointwise(learned, picks, ids, id);
    }
  }

  function IdsIn(cs: seq<StateChange>): set<Id> {
    set c | c in cs :: c.escrow
  }

  function Missing(requested: seq<Id>, present: set<Id>): seq<Id> {
    if |requested| == 0 then []
    else
      var init := Missing(requested[..|requested| - 1], present);
      var id := requested[|requested| - 1];
      if id in present then init else init + [id]
  }

  /** The listed ids that had a learned key, each once. */
  function Shortcuts(learned: Learned, ids: seq<Id>): seq<Id> {
    if |ids| == 0 then []
    else
      var init := Shortcuts(learned, ids[..|ids| - 1]);
      var id := ids[|ids| - 1];
      if id in learned && id !in init then init + [id] else init
  }

  /** More than half of a batch of ten or more answering nothing is a provider fault. */
  predicate ImplausibleRemovalBatch(requested: nat, missing: nat) {
    requested >= REMOVAL_GUARD_MIN_BATCH && 2 * missing > requested
  }

  function FilterUnchanged(cs: seq<StateChange>, since: u32): seq<StateChange> {
    if since == 0 then cs else KeepChanged(cs, since)
  }

  function KeepChanged(cs: seq<StateChange>, since: u32): seq<StateChange> {
    if |cs| == 0 then []
    else
      var init := KeepChanged(cs[..|cs| - 1], since);
      var c := cs[|cs| - 1];
      if c.change == REMOVED || c.lastModified >= since then init + [c] else init
  }

  function Removals(ids: seq<Id>, ledger: u32, closedAt: int): (cs: seq<StateChange>)
    ensures |cs| == |ids| && forall i :: 0 <= i < |ids| ==> cs[i] == Removal(ids[i], ledger, closedAt)
  {
    seq(|ids|, i requires 0 <= i < |ids| => Removal(ids[i], ledger, closedAt))
  }

  // ---- Ordering by escrow id ---------------------------------------------------------------------

  function InsertChange(c: StateChange, cs: seq<StateChange>): (r: seq<StateChange>)
    ensures multiset(r) == multiset(cs) + multiset{c}
    ensures forall x :: x in r <==> x == c || x in cs
    ensures |r| == |cs| + 1
  {
    if |cs| == 0 || Less(c.escrow, cs[0].escrow) then [c] + cs
    else
      assert cs == [cs[0]] + cs[1..];
      [cs[0]] + InsertChange(c, cs[1..])
  }

  function SortByEscrow(cs: seq<StateChange>): (r: seq<StateChange>)
    ensures forall x :: x in r <==> x in cs
    ensures |r| == |cs|
  {
    if |cs| == 0 then []
    else
      assert cs == cs[..|cs| - 1] + [cs[|cs| - 1]];
      InsertChange(cs[|cs| - 1], SortByEscrow(cs[..|cs| - 1]))
  }

  // ---- One fetch --------------------------------------------------------------------------------

  /** What a detector remembers between fetches. */
  datatype Memory = Memory(learned: Learned, suppressed: nat, calls: nat)

  datatype Fetch = Fetch(memory: Memory, changes: Option<seq<StateChange>>)

  /** What one fetch is asked for, by whom and when. */
  datatype Request = Request(tracked: set<Id>, ids: seq<Id>, ledger: u32, closedAt: int, since: u32)

  /** One query read to the end: the picks it yields, or None, and what was learned from them. */
  datatype Round = Round(learned: Learned, calls: nat, changes: Option<seq<StateChange>>)

  ghost function AskRound(learned: Learned, calls: nat, rpc: Rpc, isAddress: string -> bool, q: Request,
                          ids: seq<Id>): Round {
    var a := Query(rpc, calls, learned, isAddress, ids);
    if a.entries.None? then Round(learned, a.calls, None)
    else
      var picks := Picks(a.entries.value, q.tracked);
      Round(LearnedAfter(learned, picks), a.calls, Some(Build(picks, q.ledger, q.closedAt)))
  }

  /**
   Everything known before anyone is judged absent: the first answers, and for
   every escrow whose shortcut answered nothing, a second look through all its
   candidate keys with the shortcut forgotten.
   */
  ghost function Gather(m: Memory, rpc: Rpc, isAddress: string -> bool, q: Request): Round {
    var first := AskRound(m.learned, m.calls, rpc, isAddress, q, q.ids);
    if first.changes.None? then first
    else
      var relearn := Stale(m, isAddress, q, first);
      if |relearn| == 0 then first
      else
        var second := AskRound(first.learned - Elements(relearn), first.calls, rpc, isAddress, q, relearn);
        if second.changes.None? then second
        else second.(changes := Some(first.changes.value + second.changes.value))
  }

  ghost function Stale(m: Memory, isAddress: string -> bool, q: Request, first: Round): seq<Id>
    requires first.changes.Some?
  {
    Shortcuts(first.learned, Missing(Asked(m.learned, isAddress, q.ids), IdsIn(first.changes.value)))
  }

  /** Judging absence over the unfiltered set, guarding it, and only then filtering. */
  ghost function Judge(suppressed: nat, requested: seq<Id>, g: Round, q: Request): Fetch
    requires g.changes.Some?
  {
    var missing := Missing(requested, IdsIn(g.changes.value));
    if ImplausibleRemovalBatch(|requested|, |missing|) then
      Fetch(Memory(g.learned, suppressed + |missing|, g.calls),
            Some(FilterUnchanged(SortByEscrow(g.changes.value), q.since)))
    else
      Fetch(Memory(g.learned, suppressed, g.calls),
            Some(FilterUnchanged(SortByEscrow(g.changes.value + Removals(missing, q.ledger, q.closedAt)), q.since)))
  }

  ghost function FetchOf(m: Memory, rpc: Rpc, isAddress: string -> bool, q: Request): Fetch {
    if |q.ids| == 0 then Fetch(m, Some([]))
    else
      var g := Gather(m, rpc, isAddress, q);
      if g.changes.None? then Fetch(Memory(g.learned, m.suppressed, g.calls), None)
      else Judge(m.suppressed, Asked(m.learned, isAddress, q.ids), g, q)
  }

  // ---- The detector itself -------------------------------------------------------------------------

  class EscrowStateDetector {
    const registry: Registry.Registry
    const isAddress: string -> bool
    var learned: Learned
    var suppressedRemovals: nat
    var calls: nat
    /** The nodes of all fetches so far. */
    ghost var nodes: seq<Rpc>

    function Value(): Memory
      reads this
    {
      Memory(learned, suppressedRemovals, calls)
    }

    constructor (registry: Registry.Registry, isAddress: string -> bool)
      ensures Value() == Memory(map[], 0, 0) && this.registry == registry && this.isAddress == isAddress && nodes == []
    {
      this.registry, this.isAddress := registry, isAddress;
      learned, suppressedRemovals, calls, nodes := map[], 0, 0, [];
    }

    /** What a fetch for id spends: the currency the sweep budgets in. */
    function KeyCost(id: Id): (cost: nat)
      reads this
      ensures cost >= |KeysFor(learned, isAddress, id)|
      ensures 1 <= cost <= CANDIDATE_KEYS_PER_ESCROW
    {
      if id in learned then 1 else CANDIDATE_KEYS_PER_ESCROW
    }

    method QueryEntries(rpc: Rpc, escrowIDs: seq<Id>) returns (entries: Option<seq<Entry>>, requested: seq<Id>)
      modifies this`calls
      ensures Answer(entries, calls) == Query(rpc, old(calls), learned, isAddress, escrowIDs)
      ensures requested == Asked(learned, isAddress, escrowIDs)
    {
      var keys: seq<Key> := [];
      requested := [];
      for i := 0 to |escrowIDs|
        invariant keys == AllKeys(learned, isAddress, escrowIDs[..i])
        invariant requested == Asked(learned, isAddress, escrowIDs[..i])
      {
        var id := escrowIDs[i];
        assert escrowIDs[..i + 1][..i] == escrowIDs[..i];
        if id in learned {
          requested := requested + [id];
          keys := keys + [learned[id]];
          continue;
        }
        if !isAddress(id) {
          continue;
        }
        requested := requested + [id];
        keys := keys + Candidates(id);
      }
      assert escrowIDs[..|escrowIDs|] == escrowIDs;
      if |keys| == 0 {
        return Some([]), requested;
      }
      entries := AskChunks(rpc, Chunks(keys, MAX_LEDGER_ENTRY_KEYS));
    }

    method AskChunks(rpc: Rpc, chunks: seq<seq<Key>>) returns (entries: Option<seq<Entry>>)
      modifies this`calls
      ensures Answer(entries, calls) == AskAll(rpc, old(calls), chunks)
    {
      var merged: seq<Entry> := [];
      assert Prepend(merged, AskAll(rpc, calls, chunks[0..])) == AskAll(rpc, calls, chunks) by {
        assert chunks[0..] == chunks;
        PrependNothing(AskAll(rpc, calls, chunks));
      }
      for i := 0 to |chunks|
        invariant AskAll(rpc, old(calls), chunks) == Prepend(merged, AskAll(rpc, calls, chunks[i..]))
      {
        var answer := rpc(calls, chunks[i]);
        ghost var rest := AskAll(rpc, calls + 1, chunks[i + 1..]);
        assert chunks[i..][1..] == chunks[i + 1..];
        calls := calls + 1;
        if answer.None? {
          return None;
        }
        PrependTwice(merged, answer.value, rest);
        merged := merged + answer.value;
      }
      entries := Some(merged);
      assert merged + [] == merged;
    }

    method BuildStateChanges(entries: seq<Entry>, ledger: u32, closedAt: int) returns (out: seq<StateChange>)
      modifies this`learned
      ensures out == Build(Picks(entries, registry.escrows), ledger, closedAt)
      ensures learned == LearnedAfter(old(learned), Picks(entries, registry.escrows))
    {
      var picks: map<Id, Entry> := map[];
      for i := 0 to |entries|
        invariant picks == Picks(entries[..i], registry.escrows)
      {
        assert entries[..i + 1][..i] == entries[..i];
        picks := Pick(picks, entries[i], registry.escrows);
      }
      assert entries[..|entries|] == entries;
      out := Emit(picks, ledger, closedAt);
    }

    /** Emits the picks in id order and remembers every echoed key. */
    method Emit(picks: map<Id, Entry>, ledger: u32, closedAt: int) returns (out: seq<StateChange>)
      modifies this`learned
      ensures out == Build(picks, ledger, closedAt)
      ensures learned == LearnedAfter(old(learned), picks)
    {
      var ids := SortIds(picks.Keys);
      out := [];
      for i := 0 to |ids|
        invariant out == ChangesFor(picks, ids[..i], ledger, closedAt)
        invariant learned == Learn(old(learned), picks, ids[..i])
      {
        var id := ids[i];
        assert ids[..i + 1][..i] == ids[..i];
        assert id in picks.Keys;
        var p := picks[id];
        if p.echo.Some? {
          learned := learned[id := p.echo.value];
        }
        out := out + [Updated(id, p, ledger, closedAt)];
      }
      assert ids[..|ids|] == ids;
      LearnAll(old(learned), picks, ids);
    }

    method ForgetLearnedAmong(ids: seq<Id>) returns (had: seq<Id>)
      modifies this`learned
      ensures had == Shortcuts(old(learned), ids)
      ensures learned == old(learned) - Elements(had)
      ensures |had| == 0 ==> learned == old(learned)
    {
      had := [];
      for i := 0 to |ids|
        invariant had == Shortcuts(old(learned), ids[..i])
        invariant learned == old(learned) - Elements(had)
      {
        var id := ids[i];
        assert ids[..i + 1][..i] == ids[..i];
        if id in learned {
          learned := learned - {id};
          had := had + [id];
        }
      }
      assert ids[..|ids|] == ids;
      if |had| == 0 {
        assert Elements(had) == {};
      }
    }

    method FetchStates(rpc: Rpc, q: Request) returns (changes: Option<seq<StateChange>>)
      requires q.tracked == registry.escrows
      modifies this
      ensures Fetch(Value(), changes) == FetchOf(old(Value()), rpc, isAddress, q)
      ensures nodes == old(nodes) + [rpc]
    {
      nodes := nodes + [rpc];
      if |q.ids| == 0 {
        return Some([]);
      }
      var requested, found := GatherAll(rpc, q);
      if found.None? {
        return None;
      }
      var missing := MissingFrom(requested, found.value);
      if ImplausibleRemovalBatch(|requested|, |missing|) {
        suppressedRemovals := suppressedRemovals + |missing|;
        return Some(FilterUnchanged(SortByEscrow(found.value), q.since));
      }
      var all := SortByEscrow(found.value + Removals(missing, q.ledger, q.closedAt));
      return Some(FilterUnchanged(all, q.since));
    }

    method GatherAll(rpc: Rpc, q: Request) returns (requested: seq<Id>, changes: Option<seq<StateChange>>)
      requires q.tracked == registry.escrows
      modifies this`learned, this`calls
      ensures Round(learned, calls, changes) == Gather(old(Value()), rpc, isAddress, q)
      ensures requested == Asked(old(learned), isAddress, q.ids)
    {
      requested, changes := AskOnce(rpc, q, q.ids);
      if changes.None? {
        return;
      }
      var missing := MissingFrom(requested, changes.value);
      var relearn := ForgetLearnedAmong(missing);
      if |relearn| == 0 {
        return;
      }
      var _, more := AskOnce(rpc, q, relearn);
      changes := if more.None? then None else Some(changes.value + more.value);
    }

    method AskOnce(rpc: Rpc, q: Request, ids: seq<Id>) returns (requested: seq<Id>, changes: Option<seq<StateChange>>)
      requires q.tracked == registry.escrows
      modifies this`learned, this`calls
      ensures Round(learned, calls, changes) == AskRound(old(learned), old(calls), rpc, isAddress, q, ids)
      ensures requested == Asked(old(learned), isAddress, ids)
    {
      var entries: Option<seq<Entry>>;
      entries, requested := QueryEntries(rpc, ids);
      if entries.None? {
        return requested, None;
      }
      var built := BuildStateChanges(entries.value, q.ledger, q.closedAt);
      changes := Some(built);
    }
  }

  method MissingFrom(requested: seq<Id>, present: seq<StateChange>) returns (missing: seq<Id>)
    ensures missing == Missing(requested, IdsIn(present))
  {
    var seen := IdsIn(present);
    missing := [];
    for i := 0 to |requested|
      invariant missing == Missing(requested[..i], seen)
    {
      assert requested[..i + 1][..i] == requested[..i];
      if requested[i] !in seen {
        missing := missing + [requested[i]];
      }
    }
    assert requested[..|requested|] == requested;
  }

  lemma PrependNothing(a: Answer)
    ensures Prepend([], a) == a
  {
    if a.entries.Some? {
      assert [] + a.entries.value == a.entries.value;
    }
  }

  lemma PrependTwice(x: seq<Entry>, y: seq<Entry>, a: Answer)
    ensures Prepend(x, Prepend(y, a)) == Prepend(x + y, a)
  {
    if a.entries.Some? {
      assert x + (y + a.entries.value) == (x + y) + a.entries.value;
    }
  }
}
