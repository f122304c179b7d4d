/**
 The key cache caught out: an escrow whose instance key was learned while it was the
 only entry there was, and beside which a dedicated data entry appeared later.
 */
module Shadowing {
  import opened Base
  import opened Ids
  import opened Detector
  import opened DetectorLemmas
  import opened DetectorTheorems
  import opened Nodes
  import DetectorGuarantees

  /** The chain while the escrow has only its instance entry, and once a data entry is there too. */
  function Before(id: Id, a: Stored): Chain {
    map[Candidate(id, Instance) := a]
  }

  function After(id: Id, a: Stored, b: Stored): Chain {
    map[Candidate(id, Instance) := a, Candidate(id, VecPersistent) := b]
  }

  function Asking(id: Id, ledger: u32, closedAt: int): Request {
    Request({id}, [id], ledger, closedAt, 0)
  }

  /** What a new detector remembers after one fetch of the escrow. */
  ghost function Remembered(id: Id, a: Stored, isAddress: string -> bool, ledger: u32, closedAt: int): Memory {
    FetchOf(NEW, Node(Before(id, a)), isAddress, Asking(id, ledger, closedAt)).memory
  }

  function InstanceEntry(id: Id, a: Stored): Entry {
    Entry(ContractData(id, true), Some(Candidate(id, Instance)), a.raw, a.lastModified)
  }

  lemma OneAsked(isAddress: string -> bool, id: Id)
    requires isAddress(id)
    ensures AllKeys(map[], isAddress, [id]) == Candidates(id) && Asked(map[], isAddress, [id]) == [id]
  {
    assert [id][..0] == [];
  }

  lemma OneHeld(id: Id, a: Stored)
    ensures Held(Before(id, a), Candidates(id)) == [InstanceEntry(id, a)]
  {
    var keys, chain := Candidates(id), Before(id, a);
    assert keys[..3][..2] == keys[..2] && keys[..2][..1] == keys[..1] && keys[..1][..0] == [];
    assert Held(chain, keys[..1]) == [];
    assert Held(chain, keys[..2]) == [];
    assert Held(chain, keys[..3]) == [];
  }

  lemma OnePicked(id: Id, e: Entry)
    requires id != "" && e.body == ContractData(id, true)
    ensures Picks([e], {id}) == map[id := e]
  {
    assert [e][..0] == [];
  }

  lemma OneChunk(rpc: Rpc, keys: seq<Key>, es: seq<Entry>)
    requires 0 < |keys| <= MAX_LEDGER_ENTRY_KEYS && rpc(0, keys) == Some(es)
    ensures AskAll(rpc, 0, Chunks(keys, MAX_LEDGER_ENTRY_KEYS)) == Answer(Some(es), 1)
  {
    assert Chunks(keys, MAX_LEDGER_ENTRY_KEYS) == [keys];
    assert [keys][1..] == [];
    assert es + [] == es;
  }

  lemma FirstAnswer(id: Id, a: Stored, isAddress: string -> bool)
    requires isAddress(id)
    ensures Query(Node(Before(id, a)), 0, map[], isAddress, [id]) == Answer(Some([InstanceEntry(id, a)]), 1)
  {
    OneAsked(isAddress, id);
    OneHeld(id, a);
    OneChunk(Node(Before(id, a)), Candidates(id), [InstanceEntry(id, a)]);
  }

  lemma FirstRound(id: Id, a: Stored, isAddress: string -> bool, q: Request)
    requires id != "" && isAddress(id) && q.tracked == {id}
    ensures AskRound(map[], 0, Node(Before(id, a)), isAddress, q, [id]) ==
      Round(map[id := Candidate(id, Instance)], 1, Some(Build(map[id := InstanceEntry(id, a)], q.ledger, q.closedAt)))
  {
    FirstAnswer(id, a, isAddress);
    OnePicked(id, InstanceEntry(id, a));
    var picks := map[id := InstanceEntry(id, a)];
    assert LearnedAfter(map[], picks) == map[id := Candidate(id, Instance)];
  }

  /** The first fetch learns the instance key; the escrow answered, so nothing is asked again. */
  lemma LearnsTheInstance(id: Id, a: Stored, isAddress: string -> bool, ledger: u32, closedAt: int)
    requires id != "" && isAddress(id)
    ensures Remembered(id, a, isAddress, ledger, closedAt).learned == map[id := Candidate(id, Instance)]
  {
    var q := Asking(id, ledger, closedAt);
    FirstRound(id, a, isAddress, q);
    BuiltChanges(map[id := InstanceEntry(id, a)], ledger, closedAt);
    OneAsked(isAddress, id);
    var first := AskRound(map[], 0, Node(Before(id, a)), isAddress, q, [id]);
    NothingMissing(id, IdsIn(first.changes.value));
    assert Stale(NEW, isAddress, q, first) == [];
    assert Gather(NEW, Node(Before(id, a)), isAddress, q) == first;
  }

  lemma NothingMissing(id: Id, present: set<Id>)
    requires id in present
    ensures Missing([id], present) == []
  {
    assert [id][..0] == [];
  }

  lemma Reported(m: Memory, id: Id, chain: Chain, isAddress: string -> bool, ledger: u32, closedAt: int, k: Key)
    requires Honest(Node(chain), chain) && Reliable(Node(chain))
    requires OneData(chain, id) && LearnedOk(m.learned, isAddress)
    requires isAddress(id) && Resolves(m.learned, {id}, chain, id, k) && k.Candidate? && k.id == id && k in chain
    ensures var f := FetchOf(m, Node(chain), isAddress, Asking(id, ledger, closedAt));
      f.changes.Some? && Current(chain, k, ledger, closedAt) in f.changes.value
  {
    var q := Asking(id, ledger, closedAt);
    HonestFetch(m, Node(chain), isAddress, q, chain);
    ReliableFetch(m, Node(chain), isAddress, q);
    var c := Current(chain, k, ledger, closedAt);
    assert k == Candidate(id, k.shape);
    DetectorGuarantees.ReportsOne(m.learned, isAddress, q, chain, c, k);
    var f := FetchOf(m, Node(chain), isAddress, q);
    DetectorGuarantees.ExpectedExactly(f.changes.value, m.learned, isAddress, q, chain, c);
  }

  /** Whoever remembers the instance key and whoever remembers nothing are told different things. */
  lemma TwoAnswers(m: Memory, id: Id, a: Stored, b: Stored, isAddress: string -> bool, ledger: u32, closedAt: int)
    requires id != "" && isAddress(id) && a != b && m.learned == map[id := Candidate(id, Instance)]
    ensures var chain, q := After(id, a, b), Asking(id, ledger, closedAt);
            var f, g := FetchOf(m, Node(chain), isAddress, q), FetchOf(m.(learned := map[]), Node(chain), isAddress, q);
      && Honest(Node(chain), chain) && Reliable(Node(chain)) && DetectorGuarantees.OneDataEach(chain, [id])
      && DetectorGuarantees.Shadowed(m.learned, isAddress, q, chain, id)
      && f.changes.Some? && g.changes.Some? && f.changes != g.changes
      && Current(chain, Candidate(id, Instance), ledger, closedAt) in f.changes.value
      && Current(chain, Candidate(id, VecPersistent), ledger, closedAt) in g.changes.value
  {
    var chain, q := After(id, a, b), Asking(id, ledger, closedAt);
    NodeIsHonest(chain);
    Reported(m, id, chain, isAddress, ledger, closedAt, Candidate(id, Instance));
    Reported(m.(learned := map[]), id, chain, isAddress, ledger, closedAt, Candidate(id, VecPersistent));
    assert DetectorGuarantees.Shadowed(m.learned, isAddress, q, chain, id);
    DetectorGuarantees.CacheAgreesIff(m, Node(chain), isAddress, q, chain);
  }

  /**
   It does happen, and against a node that never fails and always tells the truth. A
   new detector learns the instance key in its first fetch; once the data entry is
   there too, it goes on reporting the instance entry where one that had learned
   nothing reports the data entry.
   */
  lemma LearnedKeyGoesStale(id: Id, a: Stored, b: Stored, isAddress: string -> bool, ledger: u32, later: u32,
                            closedAt: int)
    requires id != "" && isAddress(id) && a != b
    ensures var m, chain := Remembered(id, a, isAddress, ledger, closedAt), After(id, a, b);
            var q, node := Asking(id, later, closedAt), Node(chain);
            var f, g := FetchOf(m, node, isAddress, q), FetchOf(m.(learned := map[]), node, isAddress, q);
      && Honest(node, chain) && Reliable(node) && DetectorGuarantees.OneDataEach(chain, [id])
      && DetectorGuarantees.Shadowed(m.learned, isAddress, q, chain, id)
      && f.changes.Some? && g.changes.Some? && f.changes != g.changes
      && Current(chain, Candidate(id, Instance), later, closedAt) in f.changes.value
      && Current(chain, Candidate(id, VecPersistent), later, closedAt) in g.changes.value
  {
    var m := Remembered(id, a, isAddress, ledger, closedAt);
    LearnsTheInstance(id, a, isAddress, ledger, closedAt);
    TwoAnswers(m, id, a, b, isAddress, later, closedAt);
  }
}
