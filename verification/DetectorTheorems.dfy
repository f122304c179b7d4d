/**
 What a fetch means: against an honest RPC its outcome is a function of the chain
 alone, whatever the key cache holds; against any RPC the removal guard conserves
 every requested escrow; and its price is bounded.
 */
module DetectorTheorems {
  import opened Base
  import opened Ids
  import opened Envelopes
  import opened Detector
  import opened DetectorLemmas
  import Facts

  // ---- An honest RPC over a chain -----------------------------------------------------------

  datatype Stored = Stored(raw: string, lastModified: u32)

  /** The chain's contract data under candidate keys. */
  type Chain = map<Key, Stored>

  ghost predicate EntryOf(e: Entry, k: Key, chain: Chain) {
    && k.Candidate? && k in chain
    && e.body == ContractData(k.id, k.shape.Instance?)
    && e.raw == chain[k].raw && e.lastModified == chain[k].lastModified
    && (e.echo.Some? ==> e.echo == Some(k))
  }

  /** The answer is the stored entries of the requested keys, in any order, echoing the key or not. */
  ghost predicate Faithful(es: seq<Entry>, keys: seq<Key>, chain: Chain) {
    && (forall e {:trigger Justified(e, keys, chain)} :: e in es ==> Justified(e, keys, chain))
    && (forall k {:trigger Answered(k, es, chain)} :: k in keys && k.Candidate? && k in chain ==>
         Answered(k, es, chain))
  }

  ghost predicate Justified(e: Entry, keys: seq<Key>, chain: Chain) {
    exists k :: k in keys && EntryOf(e, k, chain)
  }

  ghost predicate Answered(k: Key, es: seq<Entry>, chain: Chain) {
    exists e :: e in es && EntryOf(e, k, chain)
  }

  /** It may fail, at any request; but when it answers, it answers faithfully. */
  ghost predicate Honest(rpc: Rpc, chain: Chain) {
    forall n: nat, keys: seq<Key> :: rpc(n, keys).Some? ==> Faithful(rpc(n, keys).value, keys, chain)
  }

  /** It never fails. */
  ghost predicate Reliable(rpc: Rpc) {
    forall n: nat, keys: seq<Key> :: rpc(n, keys).Some?
  }

  /** Some candidate entry of the escrow is stored. */
  ghost predicate OnChain(chain: Chain, id: Id) {
    exists s :: Candidate(id, s) in chain
  }

  /** At most one dedicated data entry of the escrow is stored. */
  ghost predicate OneData(chain: Chain, id: Id) {
    forall s, t :: Candidate(id, s) in chain && Candidate(id, t) in chain && s != Instance && t != Instance ==> s == t
  }

  /** The plain four-key query may settle on k: a data entry, or the instance entry for want of one. */
  ghost predicate Best(chain: Chain, id: Id, k: Key) {
    && k.Candidate? && k.id == id && k in chain
    && (k.shape.Instance? ==> forall s :: Candidate(id, s) in chain ==> s == Instance)
  }

  lemma BestExists(chain: Chain, id: Id) returns (k: Key)
    requires OnChain(chain, id)
    ensures Best(chain, id, k)
  {
    if s :| Candidate(id, s) in chain && s != Instance {
      k := Candidate(id, s);
    } else {
      k := Candidate(id, Instance);
    }
  }

  /** Every learned key is one of its own escrow's candidates. */
  ghost predicate LearnedOk(learned: Learned, isAddress: string -> bool) {
    forall id :: id in learned ==> learned[id].Candidate? && learned[id].id == id && isAddress(id)
  }

  /** A single query may settle on k for an escrow: through its learned key only, if it has one. */
  ghost predicate Source(learned: Learned, isAddress: string -> bool, tracked: set<Id>, chain: Chain, id: Id, k: Key) {
    && Facts.Known(tracked, id)
    && if id in learned then k == learned[id] && k in chain else isAddress(id) && Best(chain, id, k)
  }

  /** A single query finds some entry of an escrow. */
  ghost predicate Found(learned: Learned, isAddress: string -> bool, tracked: set<Id>, chain: Chain, id: Id) {
    && Facts.Known(tracked, id)
    && if id in learned then learned[id] in chain else isAddress(id) && OnChain(chain, id)
  }

  /** A whole fetch may settle on k: a stale shortcut falls back to the plain query. */
  ghost predicate Resolves(learned: Learned, tracked: set<Id>, chain: Chain, id: Id, k: Key) {
    && Facts.Known(tracked, id)
    && if id in learned && learned[id] in chain then k == learned[id] else Best(chain, id, k)
  }

  /** The registry tracks the escrow and the chain has some entry of it. */
  ghost predicate There(tracked: set<Id>, chain: Chain, id: Id) {
    Facts.Known(tracked, id) && OnChain(chain, id)
  }

  lemma FoundHasSource(learned: Learned, isAddress: string -> bool, tracked: set<Id>, chain: Chain, id: Id)
      returns (k: Key)
    requires Found(learned, isAddress, tracked, chain, id)
    ensures Source(learned, isAddress, tracked, chain, id, k)
  {
    if id in learned {
      k := learned[id];
    } else {
      k := BestExists(chain, id);
    }
  }

  /** A whole fetch can settle on something exactly when there is something, whatever was learned. */
  lemma ResolvesIff(learned: Learned, isAddress: string -> bool, tracked: set<Id>, chain: Chain, id: Id)
    requires LearnedOk(learned, isAddress)
    ensures (exists k :: Resolves(learned, tracked, chain, id, k)) <==> There(tracked, chain, id)
    ensures forall k :: Resolves(learned, tracked, chain, id, k) ==> k.Candidate? && k.id == id && k in chain
  {
    if k :| Resolves(learned, tracked, chain, id, k) {
      assert k == Candidate(id, k.shape);
    }
    if There(tracked, chain, id) {
      var k := BestExists(chain, id);
      assert Resolves(learned, tracked, chain, id, if id in learned && learned[id] in chain then learned[id] else k);
    }
  }

  /** And on one entry only where no two data entries compete. */
  lemma ResolvesToOne(learned: Learned, tracked: set<Id>, chain: Chain, id: Id, k: Key, l: Key)
    requires OneData(chain, id) && Resolves(learned, tracked, chain, id, k) && Resolves(learned, tracked, chain, id, l)
    ensures k == l
  {
    if !(id in learned && learned[id] in chain) {
      assert k == Candidate(id, k.shape) && l == Candidate(id, l.shape);
    }
  }

  function Current(chain: Chain, k: Key, ledger: u32, closedAt: int): StateChange
    requires k.Candidate? && k in chain
  {
    StateChange(k.id, UPDATED, ledger, closedAt, chain[k].raw, chain[k].lastModified)
  }

  /** c reports the entry under k. */
  predicate Tells(chain: Chain, k: Key, ledger: u32, closedAt: int, c: StateChange) {
    k.Candidate? && k in chain && c == Current(chain, k, ledger, closedAt)
  }

  lemma FaithfulConcat(a: seq<Entry>, b: seq<Entry>, ka: seq<Key>, kb: seq<Key>, chain: Chain)
    requires Faithful(a, ka, chain) && Faithful(b, kb, chain)
    ensures Faithful(a + b, ka + kb, chain)
  {
    forall e | e in a + b
      ensures Justified(e, ka + kb, chain)
    {
      if e in a {
        assert Justified(e, ka, chain);
        var k :| k in ka && EntryOf(e, k, chain);
        assert k in ka + kb;
      } else {
        assert Justified(e, kb, chain);
        var k :| k in kb && EntryOf(e, k, chain);
        assert k in ka + kb;
      }
    }
    forall k | k in ka + kb && k.Candidate? && k in chain
      ensures Answered(k, a + b, chain)
    {
      if k in ka {
        assert Answered(k, a, chain);
        var e :| e in a && EntryOf(e, k, chain);
        assert e in a + b;
      } else {
        assert Answered(k, b, chain);
        var e :| e in b && EntryOf(e, k, chain);
        assert e in a + b;
      }
    }
  }

  lemma {:induction false} HonestAskAll(rpc: Rpc, n: nat, chunks: seq<seq<Key>>, chain: Chain)
    requires Honest(rpc, chain)
    ensures var a := AskAll(rpc, n, chunks); a.entries.Some? ==> Faithful(a.entries.value, Joined(chunks), chain)
    decreases |chunks|
  {
    if |chunks| > 0 && AskAll(rpc, n, chunks).entries.Some? {
      HonestAskAll(rpc, n + 1, chunks[1..], chain);
      FaithfulConcat(rpc(n, chunks[0]).value, AskAll(rpc, n + 1, chunks[1..]).entries.value,
                     chunks[0], Joined(chunks[1..]), chain);
    }
  }

  /** Chunking changes nothing: a whole query is as faithful as one request. */
  lemma HonestQuery(rpc: Rpc, n: nat, learned: Learned, isAddress: string -> bool, ids: seq<Id>, chain: Chain)
    requires Honest(rpc, chain)
    ensures var a := Query(rpc, n, learned, isAddress, ids);
      a.entries.Some? ==> Faithful(a.entries.value, AllKeys(learned, isAddress, ids), chain)
  {
    var keys := AllKeys(learned, isAddress, ids);
    HonestAskAll(rpc, n, Chunks(keys, MAX_LEDGER_ENTRY_KEYS), chain);
    ChunksJoin(keys, MAX_LEDGER_ENTRY_KEYS);
  }

  lemma CandidatesCover(id: Id, s: Shape)
    ensures Candidate(id, s) in Candidates(id)
  {
    match s {
      case VecPersistent => assert Candidates(id)[0] == Candidate(id, s);
      case SymPersistent => assert Candidates(id)[1] == Candidate(id, s);
      case VecTemporary => assert Candidates(id)[2] == Candidate(id, s);
      case Instance => assert Candidates(id)[3] == Candidate(id, s);
    }
  }

  /** For one escrow, the picked entry of an honest query is a stored entry of a source key, and there is one if any. */
  lemma HonestPick(es: seq<Entry>, learned: Learned, isAddress: string -> bool, tracked: set<Id>, ids: seq<Id>,
                   chain: Chain, id: Id)
    requires Faithful(es, AllKeys(learned, isAddress, ids), chain) && LearnedOk(learned, isAddress)
    ensures PickMeans(Picks(es, tracked), learned, isAddress, tracked, ids, chain, id)
  {
    if id in Picks(es, tracked) {
      var k := HonestPicked(es, learned, isAddress, tracked, ids, chain, id);
      assert k == Candidate(id, k.shape);
    } else if id in ids && Found(learned, isAddress, tracked, chain, id) {
      HonestFound(es, learned, isAddress, tracked, ids, chain, id);
    }
  }

  /** The key behind a picked entry, and that it is one the escrow was asked about with. */
  lemma KeyBehind(es: seq<Entry>, learned: Learned, isAddress: string -> bool, ids: seq<Id>, chain: Chain, e: Entry)
      returns (k: Key)
    requires Faithful(es, AllKeys(learned, isAddress, ids), chain) && LearnedOk(learned, isAddress) && e in es
    ensures EntryOf(e, k, chain) && k.id in ids && k in KeysFor(learned, isAddress, k.id)
  {
    assert Justified(e, AllKeys(learned, isAddress, ids), chain);
    k :| k in AllKeys(learned, isAddress, ids) && EntryOf(e, k, chain);
    KeysAsked(learned, isAddress, ids, k);
    var id :| id in ids && k in KeysFor(learned, isAddress, id);
    KeyOwner(learned, isAddress, id, k);
  }

  lemma KeyOwner(learned: Learned, isAddress: string -> bool, id: Id, k: Key)
    requires LearnedOk(learned, isAddress) && k in KeysFor(learned, isAddress, id)
    ensures k.Candidate? && k.id == id
  {
  }

  lemma EntryFor(es: seq<Entry>, learned: Learned, isAddress: string -> bool, ids: seq<Id>, chain: Chain, k: Key)
      returns (e: Entry)
    requires Faithful(es, AllKeys(learned, isAddress, ids), chain)
    requires k.Candidate? && k in chain && k.id in ids && k in KeysFor(learned, isAddress, k.id)
    ensures e in es && EntryOf(e, k, chain)
  {
    KeysAsked(learned, isAddress, ids, k);
    assert Answered(k, es, chain);
    e :| e in es && EntryOf(e, k, chain);
  }

  lemma HonestPicked(es: seq<Entry>, learned: Learned, isAddress: string -> bool, tracked: set<Id>, ids: seq<Id>,
                     chain: Chain, id: Id) returns (k: Key)
    requires Faithful(es, AllKeys(learned, isAddress, ids), chain) && LearnedOk(learned, isAddress)
    requires id in Picks(es, tracked)
    ensures id in ids && k.Candidate? && k.id == id && k in chain
    ensures Source(learned, isAddress, tracked, chain, id, k) && EntryOf(Picks(es, tracked)[id], k, chain)
  {
    PickedEntry(es, tracked, id);
    var p := Picks(es, tracked)[id];
    k := KeyBehind(es, learned, isAddress, ids, chain, p);
    if id !in learned && k.shape.Instance? {
      InstanceForWant(es, learned, isAddress, tracked, ids, chain, id);
    }
  }

  /** The instance entry is picked only when no data entry is stored. */
  lemma InstanceForWant(es: seq<Entry>, learned: Learned, isAddress: string -> bool, tracked: set<Id>, ids: seq<Id>,
                        chain: Chain, id: Id)
    requires Faithful(es, AllKeys(learned, isAddress, ids), chain) && LearnedOk(learned, isAddress)
    requires id in Picks(es, tracked) && Picks(es, tracked)[id].body.ContractData?
    requires Picks(es, tracked)[id].body.instanceKey && id in ids && id !in learned && isAddress(id)
    ensures forall s :: Candidate(id, s) in chain ==> s == Instance
  {
    PickedEntry(es, tracked, id);
    forall s | Candidate(id, s) in chain
      ensures s == Instance
    {
      CandidatesCover(id, s);
      var d := EntryFor(es, learned, isAddress, ids, chain, Candidate(id, s));
      assert Concerns(d, tracked, id);
    }
  }

  lemma HonestFound(es: seq<Entry>, learned: Learned, isAddress: string -> bool, tracked: set<Id>, ids: seq<Id>,
                    chain: Chain, id: Id)
    requires Faithful(es, AllKeys(learned, isAddress, ids), chain) && LearnedOk(learned, isAddress)
    requires id in ids && Found(learned, isAddress, tracked, chain, id)
    ensures id in Picks(es, tracked)
  {
    var k := FoundHasSource(learned, isAddress, tracked, chain, id);
    if id !in learned {
      CandidatesCover(id, k.shape);
      assert k == Candidate(id, k.shape);
    }
    var e := EntryFor(es, learned, isAddress, ids, chain, k);
    assert Concerns(e, tracked, id);
    PickedEntry(es, tracked, id);
  }

  // ---- One honest round ---------------------------------------------------------------------------

  /** c is the stored entry of the source key of one of the ids asked about. */
  ghost predicate Sourced(learned: Learned, isAddress: string -> bool, q: Request, ids: seq<Id>, chain: Chain,
                          c: StateChange) {
    && c.escrow in ids
    && exists k :: Source(learned, isAddress, q.tracked, chain, c.escrow, k) && Tells(chain, k, q.ledger, q.closedAt, c)
  }

  ghost predicate RoundMeans(r: Round, learned: Learned, isAddress: string -> bool, q: Request, ids: seq<Id>,
                             chain: Chain) {
    && r.changes.Some? && Strict(r.changes.value) && LearnedOk(r.learned, isAddress)
    && (forall c :: c in r.changes.value ==> Sourced(learned, isAddress, q, ids, chain, c))
    && (forall id :: id in ids && Found(learned, isAddress, q.tracked, chain, id) ==> id in IdsIn(r.changes.value))
    && (forall id :: id !in IdsIn(r.changes.value) ==>
          (id in r.learned <==> id in learned) && (id in learned ==> r.learned[id] == learned[id]))
  }

  lemma HonestRound(learned: Learned, calls: nat, rpc: Rpc, isAddress: string -> bool, q: Request, ids: seq<Id>,
                    chain: Chain)
    requires Honest(rpc, chain) && LearnedOk(learned, isAddress)
    ensures var r := AskRound(learned, calls, rpc, isAddress, q, ids);
      if r.changes.None? then r.learned == learned else RoundMeans(r, learned, isAddress, q, ids, chain)
  {
    HonestQuery(rpc, calls, learned, isAddress, ids, chain);
    if Query(rpc, calls, learned, isAddress, ids).entries.Some? {
      HonestAnswer(learned, calls, rpc, isAddress, q, ids, chain);
    }
  }

  lemma HonestAnswer(learned: Learned, calls: nat, rpc: Rpc, isAddress: string -> bool, q: Request, ids: seq<Id>,
                     chain: Chain)
    requires LearnedOk(learned, isAddress)
    requires Query(rpc, calls, learned, isAddress, ids).entries.Some?
    requires Faithful(Query(rpc, calls, learned, isAddress, ids).entries.value, AllKeys(learned, isAddress, ids), chain)
    ensures RoundMeans(AskRound(learned, calls, rpc, isAddress, q, ids), learned, isAddress, q, ids, chain)
  {
    var es := Query(rpc, calls, learned, isAddress, ids).entries.value;
    forall id
      ensures PickMeans(Picks(es, q.tracked), learned, isAddress, q.tracked, ids, chain, id)
    {
      HonestPick(es, learned, isAddress, q.tracked, ids, chain, id);
    }
    var next := Query(rpc, calls, learned, isAddress, ids).calls;
    PicksMeanRound(Picks(es, q.tracked), learned, isAddress, q, ids, chain, next);
  }

  lemma PicksMeanRound(picks: map<Id, Entry>, learned: Learned, isAddress: string -> bool, q: Request, ids: seq<Id>,
                       chain: Chain, calls: nat)
    requires LearnedOk(learned, isAddress)
    requires forall id :: PickMeans(picks, learned, isAddress, q.tracked, ids, chain, id)
    ensures var r := Round(LearnedAfter(learned, picks), calls, Some(Build(picks, q.ledger, q.closedAt)));
      RoundMeans(r, learned, isAddress, q, ids, chain)
  {
    var cs := Build(picks, q.ledger, q.closedAt);
    BuiltChanges(picks, q.ledger, q.closedAt);
    HonestLearned(learned, isAddress, q.tracked, ids, chain, picks);
    forall c | c in cs
      ensures Sourced(learned, isAddress, q, ids, chain, c)
    {
      assert PickMeans(picks, learned, isAddress, q.tracked, ids, chain, c.escrow);
      var k := PickedFrom(picks, learned, isAddress, q.tracked, ids, chain, c.escrow);
      assert Tells(chain, k, q.ledger, q.closedAt, c);
    }
    forall id | id in ids && Found(learned, isAddress, q.tracked, chain, id)
      ensures id in IdsIn(cs)
    {
      assert PickMeans(picks, learned, isAddress, q.tracked, ids, chain, id);
    }
  }

  ghost predicate PickMeans(picks: map<Id, Entry>, learned: Learned, isAddress: string -> bool, tracked: set<Id>,
                            ids: seq<Id>, chain: Chain, id: Id)
  {
    && (id in picks <==> id in ids && Found(learned, isAddress, tracked, chain, id))
    && (id in picks ==> exists k :: Source(learned, isAddress, tracked, chain, id, k) && EntryOf(picks[id], k, chain))
  }

  lemma PickedFrom(picks: map<Id, Entry>, learned: Learned, isAddress: string -> bool, tracked: set<Id>, ids: seq<Id>,
                   chain: Chain, id: Id) returns (k: Key)
    requires PickMeans(picks, learned, isAddress, tracked, ids, chain, id) && id in picks
    requires LearnedOk(learned, isAddress)
    ensures Source(learned, isAddress, tracked, chain, id, k) && EntryOf(picks[id], k, chain) && k.id == id
    ensures isAddress(id)
  {
    k :| Source(learned, isAddress, tracked, chain, id, k) && EntryOf(picks[id], k, chain);
  }

  lemma HonestLearned(learned: Learned, isAddress: string -> bool, tracked: set<Id>, ids: seq<Id>, chain: Chain,
                      picks: map<Id, Entry>)
    requires LearnedOk(learned, isAddress)
    requires forall id :: PickMeans(picks, learned, isAddress, tracked, ids, chain, id)
    ensures LearnedOk(LearnedAfter(learned, picks), isAddress)
    ensures forall id :: id !in picks ==>
      && (id in LearnedAfter(learned, picks) <==> id in learned)
      && (id in learned ==> LearnedAfter(learned, picks)[id] == learned[id])
  {
    forall id | id in LearnedAfter(learned, picks)
      ensures LearnedAfter(learned, picks)[id].Candidate? && LearnedAfter(learned, picks)[id].id == id && isAddress(id)
    {
      assert PickMeans(picks, learned, isAddress, tracked, ids, chain, id);
      if id in picks {
        var _ := PickedFrom(picks, learned, isAddress, tracked, ids, chain, id);
      }
    }
  }

  // ---- A whole honest fetch ---------------------------------------------------------------------------

  /** The ids a fetch can judge. */
  ghost function Judged(isAddress: string -> bool, ids: seq<Id>): set<Id> {
    set id | id in ids && isAddress(id)
  }

  ghost function Gone(isAddress: string -> bool, q: Request, chain: Chain): set<Id> {
    set id | id in q.ids && isAddress(id) && !There(q.tracked, chain, id)
  }

  /** Ten or more escrows can be judged, and more than half of them would be gone. */
  ghost predicate Suppressed(isAddress: string -> bool, q: Request, chain: Chain) {
    |Judged(isAddress, q.ids)| >= 10 && 2 * |Gone(isAddress, q, chain)| > |Judged(isAddress, q.ids)|
  }

  /** c is the update of an escrow under a key it resolves to. */
  ghost predicate Reported(learned: Learned, isAddress: string -> bool, q: Request, chain: Chain, c: StateChange) {
    && c.escrow in q.ids && isAddress(c.escrow)
    && exists k :: Resolves(learned, q.tracked, chain, c.escrow, k) && Tells(chain, k, q.ledger, q.closedAt, c)
  }

  /** Everything gathered is one resolved entry of each judged id that is there. */
  ghost predicate GatherMeans(g: Round, learned: Learned, isAddress: string -> bool, q: Request, chain: Chain) {
    && g.changes.Some? && DistinctChanges(g.changes.value) && LearnedOk(g.learned, isAddress)
    && (forall c :: c in g.changes.value ==> Reported(learned, isAddress, q, chain, c))
    && (forall id :: id in q.ids && isAddress(id) && There(q.tracked, chain, id) ==> id in IdsIn(g.changes.value))
  }

  lemma StaleMembers(m: Memory, isAddress: string -> bool, q: Request, first: Round, chain: Chain)
    requires LearnedOk(m.learned, isAddress) && RoundMeans(first, m.learned, isAddress, q, q.ids, chain)
    ensures StaleIds(Stale(m, isAddress, q, first), m.learned, isAddress, q, chain)
  {
    var requested := Asked(m.learned, isAddress, q.ids);
    AskedMembers(m.learned, isAddress, q.ids);
    MissingMembers(requested, IdsIn(first.changes.value));
    ShortcutsMembers(first.learned, Missing(requested, IdsIn(first.changes.value)));
  }

  lemma HonestGather(m: Memory, rpc: Rpc, isAddress: string -> bool, q: Request, chain: Chain)
    requires Honest(rpc, chain) && LearnedOk(m.learned, isAddress)
    ensures var g := Gather(m, rpc, isAddress, q);
      LearnedOk(g.learned, isAddress) && (g.changes.Some? ==> GatherMeans(g, m.learned, isAddress, q, chain))
  {
    HonestRound(m.learned, m.calls, rpc, isAddress, q, q.ids, chain);
    var first := AskRound(m.learned, m.calls, rpc, isAddress, q, q.ids);
    if first.changes.Some? {
      StaleMembers(m, isAddress, q, first, chain);
      var relearn := Stale(m, isAddress, q, first);
      if |relearn| == 0 {
        NothingStale(m.learned, isAddress, q, chain, first, relearn);
      } else {
        var kept := first.learned - Elements(relearn);
        HonestRound(kept, first.calls, rpc, isAddress, q, relearn, chain);
        var second := AskRound(kept, first.calls, rpc, isAddress, q, relearn);
        if second.changes.Some? {
          JoinRounds(m.learned, isAddress, q, chain, first, relearn, second);
        }
      }
    }
  }

  /** The ids whose shortcut answered nothing. */
  ghost predicate StaleIds(relearn: seq<Id>, learned: Learned, isAddress: string -> bool, q: Request, chain: Chain) {
    forall id :: id in relearn <==>
        id in q.ids && id in learned && !Found(learned, isAddress, q.tracked, chain, id)
  }

  /** Off the stale ids a query settles where the whole fetch does, and finds what is there. */
  lemma FirstLook(learned: Learned, isAddress: string -> bool, q: Request, chain: Chain, relearn: seq<Id>, id: Id)
    requires LearnedOk(learned, isAddress) && StaleIds(relearn, learned, isAddress, q, chain)
    requires id !in relearn && id in q.ids
    ensures forall k :: Source(learned, isAddress, q.tracked, chain, id, k) ==>
      isAddress(id) && Resolves(learned, q.tracked, chain, id, k)
    ensures isAddress(id) ==> (Found(learned, isAddress, q.tracked, chain, id) <==> There(q.tracked, chain, id))
  {
    if id in learned && learned[id] in chain {
      assert learned[id] == Candidate(id, learned[id].shape);
    }
  }

  lemma NothingStale(learned: Learned, isAddress: string -> bool, q: Request, chain: Chain, first: Round,
                     relearn: seq<Id>)
    requires LearnedOk(learned, isAddress) && RoundMeans(first, learned, isAddress, q, q.ids, chain)
    requires StaleIds(relearn, learned, isAddress, q, chain) && |relearn| == 0
    ensures GatherMeans(first, learned, isAddress, q, chain)
  {
    StrictDistinct(first.changes.value);
    forall c | c in first.changes.value
      ensures Reported(learned, isAddress, q, chain, c)
    {
      assert Sourced(learned, isAddress, q, q.ids, chain, c);
      FirstLook(learned, isAddress, q, chain, relearn, c.escrow);
    }
    forall id | id in q.ids && isAddress(id) && There(q.tracked, chain, id)
      ensures id in IdsIn(first.changes.value)
    {
      FirstLook(learned, isAddress, q, chain, relearn, id);
    }
  }

  /** And on the stale ones the second look does. */
  lemma SecondLook(learned: Learned, isAddress: string -> bool, q: Request, chain: Chain, first: Round,
                   relearn: seq<Id>, id: Id)
    requires LearnedOk(learned, isAddress) && StaleIds(relearn, learned, isAddress, q, chain) && id in relearn
    ensures var kept := first.learned - Elements(relearn);
      && isAddress(id)
      && (Found(kept, isAddress, q.tracked, chain, id) <==> There(q.tracked, chain, id))
      && forall k :: Source(kept, isAddress, q.tracked, chain, id, k) ==> Resolves(learned, q.tracked, chain, id, k)
  {
  }

  lemma JoinRounds(learned: Learned, isAddress: string -> bool, q: Request, chain: Chain, first: Round,
                   relearn: seq<Id>, second: Round)
    requires LearnedOk(learned, isAddress) && RoundMeans(first, learned, isAddress, q, q.ids, chain)
    requires StaleIds(relearn, learned, isAddress, q, chain)
    requires RoundMeans(second, first.learned - Elements(relearn), isAddress, q, relearn, chain)
    ensures var both := second.(changes := Some(first.changes.value + second.changes.value));
      GatherMeans(both, learned, isAddress, q, chain)
  {
    var a, b := first.changes.value, second.changes.value;
    StrictDistinct(a);
    StrictDistinct(b);
    forall c | c in a + b
      ensures Reported(learned, isAddress, q, chain, c)
      ensures c in a ==> c.escrow !in relearn
      ensures c in b ==> c.escrow in relearn
    {
      JoinedChange(learned, isAddress, q, chain, first, relearn, second, c);
    }
    JoinDistinct(a, b, relearn);
    forall id | id in q.ids && isAddress(id) && There(q.tracked, chain, id)
      ensures id in IdsIn(a + b)
    {
      if id in relearn {
        SecondLook(learned, isAddress, q, chain, first, relearn, id);
      } else {
        FirstLook(learned, isAddress, q, chain, relearn, id);
      }
      IdsInConcat(a, b, id);
    }
  }

  lemma JoinedChange(learned: Learned, isAddress: string -> bool, q: Request, chain: Chain, first: Round,
                     relearn: seq<Id>, second: Round, c: StateChange)
    requires LearnedOk(learned, isAddress) && RoundMeans(first, learned, isAddress, q, q.ids, chain)
    requires StaleIds(relearn, learned, isAddress, q, chain)
    requires RoundMeans(second, first.learned - Elements(relearn), isAddress, q, relearn, chain)
    ensures c in first.changes.value ==> Reported(learned, isAddress, q, chain, c) && c.escrow !in relearn
    ensures c in second.changes.value ==> Reported(learned, isAddress, q, chain, c) && c.escrow in relearn
  {
    if c in first.changes.value {
      assert Sourced(learned, isAddress, q, q.ids, chain, c);
      assert c.escrow !in relearn;
      FirstLook(learned, isAddress, q, chain, relearn, c.escrow);
    }
    if c in second.changes.value {
      assert Sourced(first.learned - Elements(relearn), isAddress, q, relearn, chain, c);
      SecondLook(learned, isAddress, q, chain, first, relearn, c.escrow);
    }
  }

  lemma JoinDistinct(a: seq<StateChange>, b: seq<StateChange>, ids: seq<Id>)
    requires DistinctChanges(a) && DistinctChanges(b)
    requires forall c :: c in a + b ==> (c in a ==> c.escrow !in ids) && (c in b ==> c.escrow in ids)
    ensures DistinctChanges(a + b)
  {
    forall i, j | 0 <= i < |a| && 0 <= j < |b|
      ensures a[i].escrow != b[j].escrow
    {
      assert (a + b)[i] in a + b && (a + b)[|a| + j] in a + b;
    }
  }

  lemma IdsInConcat(a: seq<StateChange>, b: seq<StateChange>, id: Id)
    ensures id in IdsIn(a + b) <==> id in IdsIn(a) || id in IdsIn(b)
  {
    if id in IdsIn(a) {
      var c :| c in a && c.escrow == id;
      assert c in a + b;
    }
    if id in IdsIn(b) {
      var c :| c in b && c.escrow == id;
      assert c in a + b;
    }
  }

  /** An entry last modified at or after the anchor, or any entry while there is no anchor. */
  predicate Recent(since: u32, lastModified: u32) {
    since == 0 || lastModified >= since
  }

  /** What an honest fetch of chain state may report about one escrow. */
  ghost predicate Expected(learned: Learned, isAddress: string -> bool, q: Request, chain: Chain, c: StateChange) {
    && c.escrow in q.ids && isAddress(c.escrow)
    && if There(q.tracked, chain, c.escrow)
       then Reported(learned, isAddress, q, chain, c) && Recent(q.since, c.lastModified)
       else c == Removal(c.escrow, q.ledger, q.closedAt) && !Suppressed(isAddress, q, chain)
  }

  /** The escrow's entry under k is what was reported, unless the filter dropped it. */
  ghost predicate Settled(out: seq<StateChange>, q: Request, chain: Chain, id: Id, k: Key) {
    && k.Candidate? && k.id == id && k in chain
    && if Recent(q.since, chain[k].lastModified) then Current(chain, k, q.ledger, q.closedAt) in out
       else id !in IdsIn(out)
  }

  /** What an honest fetch of chain state must report about one escrow: some entry it resolves to, or its removal. */
  ghost predicate Served(out: seq<StateChange>, learned: Learned, isAddress: string -> bool, q: Request, chain: Chain,
                         id: Id) {
    if There(q.tracked, chain, id)
    then exists k :: Resolves(learned, q.tracked, chain, id, k) && Settled(out, q, chain, id, k)
    else !Suppressed(isAddress, q, chain) ==> Removal(id, q.ledger, q.closedAt) in out
  }

  /** The changes are exactly right: one per escrow in id order, nothing unexpected, nobody left out. */
  ghost predicate Exact(out: seq<StateChange>, learned: Learned, isAddress: string -> bool, q: Request, chain: Chain) {
    && Strict(out)
    && (forall c :: c in out ==> Expected(learned, isAddress, q, chain, c))
    && (forall id :: id in q.ids && isAddress(id) ==> Served(out, learned, isAddress, q, chain, id))
  }

  /** A fetch that succeeded, with exactly the right changes and exactly what it withheld counted. */
  ghost predicate FetchMeans(f: Fetch, m: Memory, isAddress: string -> bool, q: Request, chain: Chain) {
    && f.changes.Some? && Exact(f.changes.value, m.learned, isAddress, q, chain)
    && f.memory.suppressed == m.suppressed
         + if Suppressed(isAddress, q, chain) then |Gone(isAddress, q, chain)| else 0
  }

  /**
   The closed form of a fetch against an honest RPC: unless a request fails, it
   reports exactly the expected changes, one per escrow, in id order; the guard
   counts exactly what it withholds; and only candidate keys are ever learned.
   Where several data entries of an escrow are stored, the one the RPC lists first
   is reported, and nothing else depends on which.
   */
  lemma HonestFetch(m: Memory, rpc: Rpc, isAddress: string -> bool, q: Request, chain: Chain)
    requires Honest(rpc, chain) && LearnedOk(m.learned, isAddress) && Distinct(q.ids)
    ensures var f := FetchOf(m, rpc, isAddress, q);
      && LearnedOk(f.memory.learned, isAddress)
      && if f.changes.Some? then FetchMeans(f, m, isAddress, q, chain) else f.memory.suppressed == m.suppressed
  {
    HonestGather(m, rpc, isAddress, q, chain);
    var g := Gather(m, rpc, isAddress, q);
    if |q.ids| == 0 {
      assert Judged(isAddress, q.ids) == {};
    } else if g.changes.Some? {
      var requested := Asked(m.learned, isAddress, q.ids);
      HonestCounts(m.learned, isAddress, q, chain, g);
      HonestJudge(m, isAddress, q, chain, g, Missing(requested, IdsIn(g.changes.value)));
    }
  }

  lemma {:induction false} ReliableAskAll(rpc: Rpc, n: nat, chunks: seq<seq<Key>>)
    requires Reliable(rpc)
    ensures AskAll(rpc, n, chunks).entries.Some?
    decreases |chunks|
  {
    if |chunks| > 0 {
      ReliableAskAll(rpc, n + 1, chunks[1..]);
    }
  }

  lemma ReliableRound(learned: Learned, calls: nat, rpc: Rpc, isAddress: string -> bool, q: Request, ids: seq<Id>)
    requires Reliable(rpc)
    ensures AskRound(learned, calls, rpc, isAddress, q, ids).changes.Some?
  {
    ReliableAskAll(rpc, calls, Chunks(AllKeys(learned, isAddress, ids), MAX_LEDGER_ENTRY_KEYS));
  }

  /** Only a failed request fails a fetch. */
  lemma ReliableFetch(m: Memory, rpc: Rpc, isAddress: string -> bool, q: Request)
    requires Reliable(rpc)
    ensures FetchOf(m, rpc, isAddress, q).changes.Some?
  {
    ReliableRound(m.learned, m.calls, rpc, isAddress, q, q.ids);
    var first := AskRound(m.learned, m.calls, rpc, isAddress, q, q.ids);
    var relearn := Stale(m, isAddress, q, first);
    ReliableRound(first.learned - Elements(relearn), first.calls, rpc, isAddress, q, relearn);
  }

  lemma HonestCounts(learned: Learned, isAddress: string -> bool, q: Request, chain: Chain, g: Round)
    requires LearnedOk(learned, isAddress) && Distinct(q.ids) && GatherMeans(g, learned, isAddress, q, chain)
    ensures var requested := Asked(learned, isAddress, q.ids);
            var missing := Missing(requested, IdsIn(g.changes.value));
      && |requested| == |Judged(isAddress, q.ids)| && |missing| == |Gone(isAddress, q, chain)|
      && Distinct(missing) && Elements(missing) == Gone(isAddress, q, chain)
  {
    var requested := Asked(learned, isAddress, q.ids);
    var missing := Missing(requested, IdsIn(g.changes.value));
    AskedMembers(learned, isAddress, q.ids);
    AskedDistinct(learned, isAddress, q.ids);
    MissingMembers(requested, IdsIn(g.changes.value));
    MissingDistinct(requested, IdsIn(g.changes.value));
    DistinctSize(requested);
    DistinctSize(missing);
    assert Elements(requested) == Judged(isAddress, q.ids);
    assert Elements(missing) == Gone(isAddress, q, chain);
  }

  lemma RemovalsAppended(cs: seq<StateChange>, ids: seq<Id>, ledger: u32, closedAt: int)
    requires DistinctChanges(cs) && Distinct(ids) && forall id :: id in ids ==> id !in IdsIn(cs)
    ensures DistinctChanges(cs + Removals(ids, ledger, closedAt))
    ensures forall c :: c in cs + Removals(ids, ledger, closedAt) <==>
      c in cs || (c.escrow in ids && c == Removal(c.escrow, ledger, closedAt))
  {
    var rs := Removals(ids, ledger, closedAt);
    forall c
      ensures c in rs <==> c.escrow in ids && c == Removal(c.escrow, ledger, closedAt)
    {
      if c.escrow in ids && c == Removal(c.escrow, ledger, closedAt) {
        var i :| 0 <= i < |ids| && ids[i] == c.escrow;
        assert rs[i] == c;
      }
    }
    forall c | c in cs
      ensures c.escrow in IdsIn(cs)
    {
    }
  }

  lemma HonestJudge(m: Memory, isAddress: string -> bool, q: Request, chain: Chain, g: Round, missing: seq<Id>)
    requires LearnedOk(m.learned, isAddress) && GatherMeans(g, m.learned, isAddress, q, chain)
    requires missing == Missing(Asked(m.learned, isAddress, q.ids), IdsIn(g.changes.value))
    requires Distinct(missing) && Elements(missing) == Gone(isAddress, q, chain)
    requires |missing| == |Gone(isAddress, q, chain)|
    requires |Asked(m.learned, isAddress, q.ids)| == |Judged(isAddress, q.ids)|
    ensures var f := Judge(m.suppressed, Asked(m.learned, isAddress, q.ids), g, q);
      FetchMeans(f, m, isAddress, q, chain) && LearnedOk(f.memory.learned, isAddress)
  {
    if Suppressed(isAddress, q, chain) {
      JudgeWithheld(m.learned, isAddress, q, chain, g);
    } else {
      JudgePublished(m.learned, isAddress, q, chain, g, missing);
    }
  }

  lemma JudgeWithheld(learned: Learned, isAddress: string -> bool, q: Request, chain: Chain, g: Round)
    requires LearnedOk(learned, isAddress)
    requires GatherMeans(g, learned, isAddress, q, chain) && Suppressed(isAddress, q, chain)
    ensures Exact(FilterUnchanged(SortByEscrow(g.changes.value), q.since), learned, isAddress, q, chain)
  {
    SortedStrictly(g.changes.value);
    FilteredChanges(SortByEscrow(g.changes.value), q.since);
    JudgedExactly(learned, isAddress, q, chain, g, SortByEscrow(g.changes.value), false);
  }

  lemma JudgePublished(learned: Learned, isAddress: string -> bool, q: Request, chain: Chain, g: Round,
                       missing: seq<Id>)
    requires LearnedOk(learned, isAddress)
    requires GatherMeans(g, learned, isAddress, q, chain) && !Suppressed(isAddress, q, chain)
    requires Distinct(missing) && Elements(missing) == Gone(isAddress, q, chain)
    ensures var all := g.changes.value + Removals(missing, q.ledger, q.closedAt);
      Exact(FilterUnchanged(SortByEscrow(all), q.since), learned, isAddress, q, chain)
  {
    var cs := g.changes.value;
    assert forall id :: id in missing <==> id in Elements(missing);
    forall c | c in cs
      ensures c.escrow !in missing
    {
      ReportedIsThere(learned, isAddress, q, chain, c);
    }
    RemovalsAppended(cs, missing, q.ledger, q.closedAt);
    var all := cs + Removals(missing, q.ledger, q.closedAt);
    SortedStrictly(all);
    JudgedExactly(learned, isAddress, q, chain, g, SortByEscrow(all), true);
  }

  lemma ReportedIsThere(learned: Learned, isAddress: string -> bool, q: Request, chain: Chain, c: StateChange)
    requires LearnedOk(learned, isAddress) && Reported(learned, isAddress, q, chain, c)
    ensures There(q.tracked, chain, c.escrow) && c.change == UPDATED
  {
    ResolvesIff(learned, isAddress, q.tracked, chain, c.escrow);
  }

  /** Whoever sorts all that was gathered, and the removals if they are published, is left with the right changes. */
  lemma JudgedExactly(learned: Learned, isAddress: string -> bool, q: Request, chain: Chain, g: Round,
                      all: seq<StateChange>, published: bool)
    requires LearnedOk(learned, isAddress) && GatherMeans(g, learned, isAddress, q, chain) && Strict(all)
    requires published == !Suppressed(isAddress, q, chain)
    requires forall c :: c in all <==>
      || c in g.changes.value
      || (published && c.escrow in Gone(isAddress, q, chain) && c == Removal(c.escrow, q.ledger, q.closedAt))
    ensures Exact(FilterUnchanged(all, q.since), learned, isAddress, q, chain)
  {
    FilteredChanges(all, q.since);
    var out := FilterUnchanged(all, q.since);
    forall c | c in out
      ensures Expected(learned, isAddress, q, chain, c)
    {
      if c in g.changes.value {
        ReportedIsThere(learned, isAddress, q, chain, c);
        assert UPDATED[0] != REMOVED[0];
      }
    }
    forall id | id in q.ids && isAddress(id)
      ensures Served(out, learned, isAddress, q, chain, id)
    {
      if There(q.tracked, chain, id) {
        GatheredSettles(learned, isAddress, q, chain, g, all, id);
      } else if published {
        assert Removal(id, q.ledger, q.closedAt) in all;
      }
    }
  }

  lemma GatheredSettles(learned: Learned, isAddress: string -> bool, q: Request, chain: Chain, g: Round,
                        all: seq<StateChange>, id: Id)
    requires LearnedOk(learned, isAddress) && GatherMeans(g, learned, isAddress, q, chain) && Strict(all)
    requires forall c :: c in g.changes.value ==> c in all
    requires id in q.ids && isAddress(id) && There(q.tracked, chain, id)
    ensures Served(FilterUnchanged(all, q.since), learned, isAddress, q, chain, id)
  {
    FilteredChanges(all, q.since);
    assert id in IdsIn(g.changes.value);
    var c :| c in g.changes.value && c.escrow == id;
    assert Reported(learned, isAddress, q, chain, c);
    var k :| Resolves(learned, q.tracked, chain, id, k) && Tells(chain, k, q.ledger, q.closedAt, c);
    assert UPDATED[0] != REMOVED[0];
    if d :| d in FilterUnchanged(all, q.since) && d.escrow == id {
      StrictOne(all, c, d);
    }
    assert Settled(FilterUnchanged(all, q.since), q, chain, id, k);
  }

  lemma StrictOne(cs: seq<StateChange>, c: StateChange, d: StateChange)
    requires Strict(cs) && c in cs && d in cs && c.escrow == d.escrow
    ensures c == d
  {
    StrictDistinct(cs);
  }
}
