/** The detector's promises, read off the closed form of a fetch or proved for every RPC. */
module DetectorGuarantees {
  import opened Base
  import opened Ids
  import opened Envelopes
  import opened Detector
  import opened DetectorLemmas
  import opened DetectorTheorems
  import Facts

  // ---- No false removal, none forgotten -----------------------------------------------------

  /**
   For distinct ids and an honest RPC: an id is reported removed exactly when it
   was asked about, the batch was believed, and the registry does not track it or
   no candidate entry of it exists, stale shortcut and changed-since filter
   notwithstanding. For tracked ids that is no false removal and none forgotten.
   */
  lemma RemovedExactlyWhenGone(m: Memory, rpc: Rpc, isAddress: string -> bool, q: Request, chain: Chain, id: Id)
    requires Honest(rpc, chain) && LearnedOk(m.learned, isAddress) && Distinct(q.ids)
    ensures var f := FetchOf(m, rpc, isAddress, q); f.changes.Some? ==>
      (id in RemovedIn(f.changes.value) <==>
         && id in q.ids && isAddress(id) && !Suppressed(isAddress, q, chain)
         && !(Facts.Known(q.tracked, id) && OnChain(chain, id)))
  {
    HonestFetch(m, rpc, isAddress, q, chain);
    var f := FetchOf(m, rpc, isAddress, q);
    if f.changes.Some? {
      RemovedExactly(f.changes.value, m.learned, isAddress, q, chain, id);
    }
  }

  lemma RemovedExactly(out: seq<StateChange>, learned: Learned, isAddress: string -> bool, q: Request, chain: Chain,
                       id: Id)
    requires Exact(out, learned, isAddress, q, chain) && LearnedOk(learned, isAddress)
    ensures id in RemovedIn(out) <==>
      id in q.ids && isAddress(id) && !Suppressed(isAddress, q, chain) && !There(q.tracked, chain, id)
  {
    assert UPDATED[0] != REMOVED[0];
    if c :| c in out && c.change == REMOVED && c.escrow == id {
      assert Expected(learned, isAddress, q, chain, c);
    }
    if id in q.ids && isAddress(id) && !Suppressed(isAddress, q, chain) && !There(q.tracked, chain, id) {
      assert Served(out, learned, isAddress, q, chain, id);
      assert Removal(id, q.ledger, q.closedAt) in out;
    }
  }

  /** Some, or every, entry the fetch may settle on was modified recently enough to pass the filter. */
  ghost predicate SomeRecent(learned: Learned, q: Request, chain: Chain, id: Id) {
    exists k :: Resolves(learned, q.tracked, chain, id, k) && k in chain && Recent(q.since, chain[k].lastModified)
  }

  ghost predicate AllRecent(learned: Learned, q: Request, chain: Chain, id: Id) {
    forall k :: Resolves(learned, q.tracked, chain, id, k) && k in chain ==> Recent(q.since, chain[k].lastModified)
  }

  /**
   And it is reported updated only when it is there and some entry of it changed since
   the anchor, and always when every entry did: exactly when it is there if there is no
   anchor, and exactly when its entry changed if no two data entries compete.
   */
  lemma UpdatedExactlyWhenChanged(m: Memory, rpc: Rpc, isAddress: string -> bool, q: Request, chain: Chain, id: Id)
    requires Honest(rpc, chain) && LearnedOk(m.learned, isAddress) && Distinct(q.ids)
    ensures var f := FetchOf(m, rpc, isAddress, q); f.changes.Some? ==>
      var updated := id in UpdatedIn(f.changes.value);
      var there := id in q.ids && isAddress(id) && Facts.Known(q.tracked, id) && OnChain(chain, id);
      && (updated ==> there && SomeRecent(m.learned, q, chain, id))
      && (there && AllRecent(m.learned, q, chain, id) ==> updated)
      && (q.since == 0 ==> (updated <==> there))
      && (OneData(chain, id) ==> (updated <==> there && SomeRecent(m.learned, q, chain, id)))
  {
    HonestFetch(m, rpc, isAddress, q, chain);
    var f := FetchOf(m, rpc, isAddress, q);
    if f.changes.Some? {
      UpdatedExactly(f.changes.value, m.learned, isAddress, q, chain, id);
    }
  }

  lemma UpdatedExactly(out: seq<StateChange>, learned: Learned, isAddress: string -> bool, q: Request, chain: Chain,
                       id: Id)
    requires Exact(out, learned, isAddress, q, chain) && LearnedOk(learned, isAddress)
    ensures var there := id in q.ids && isAddress(id) && There(q.tracked, chain, id);
      && (id in UpdatedIn(out) ==> there && SomeRecent(learned, q, chain, id))
      && (there && AllRecent(learned, q, chain, id) ==> id in UpdatedIn(out))
      && (q.since == 0 ==> (id in UpdatedIn(out) <==> there))
      && (OneData(chain, id) ==> (id in UpdatedIn(out) <==> there && SomeRecent(learned, q, chain, id)))
  {
    if id in UpdatedIn(out) {
      UpdatedOnlyWhenRecent(out, learned, isAddress, q, chain, id);
    }
    UpdatedWhenAllRecent(out, learned, isAddress, q, chain, id);
    RecentEntries(learned, q, chain, id);
  }

  lemma UpdatedOnlyWhenRecent(out: seq<StateChange>, learned: Learned, isAddress: string -> bool, q: Request,
                              chain: Chain, id: Id)
    requires Exact(out, learned, isAddress, q, chain) && LearnedOk(learned, isAddress) && id in UpdatedIn(out)
    ensures id in q.ids && isAddress(id) && There(q.tracked, chain, id) && SomeRecent(learned, q, chain, id)
  {
    assert UPDATED[0] != REMOVED[0];
    var c :| c in out && c.change == UPDATED && c.escrow == id;
    assert Expected(learned, isAddress, q, chain, c);
    var k :| Resolves(learned, q.tracked, chain, id, k) && Tells(chain, k, q.ledger, q.closedAt, c);
    assert Recent(q.since, chain[k].lastModified);
  }

  lemma UpdatedWhenAllRecent(out: seq<StateChange>, learned: Learned, isAddress: string -> bool, q: Request,
                             chain: Chain, id: Id)
    requires Exact(out, learned, isAddress, q, chain) && LearnedOk(learned, isAddress)
    ensures id in q.ids && isAddress(id) && There(q.tracked, chain, id) && AllRecent(learned, q, chain, id) ==>
      id in UpdatedIn(out)
  {
    if id in q.ids && isAddress(id) && There(q.tracked, chain, id) && AllRecent(learned, q, chain, id) {
      assert Served(out, learned, isAddress, q, chain, id);
      var k :| Resolves(learned, q.tracked, chain, id, k) && Settled(out, q, chain, id, k);
      assert Current(chain, k, q.ledger, q.closedAt) in out;
    }
  }

  lemma RecentEntries(learned: Learned, q: Request, chain: Chain, id: Id)
    ensures q.since == 0 ==> AllRecent(learned, q, chain, id)
    ensures OneData(chain, id) && SomeRecent(learned, q, chain, id) ==> AllRecent(learned, q, chain, id)
  {
    if OneData(chain, id) && SomeRecent(learned, q, chain, id) {
      var k :| Resolves(learned, q.tracked, chain, id, k) && k in chain && Recent(q.since, chain[k].lastModified);
      forall l | Resolves(learned, q.tracked, chain, id, l)
        ensures l == k
      {
        ResolvesToOne(learned, q.tracked, chain, id, k, l);
      }
    }
  }

  // ---- The key cache agrees with the plain query ----------------------------------------------------

  /**
   An asked escrow whose learned instance key still answers although a dedicated
   data entry with different contents has appeared beside it.
   */
  ghost predicate Shadowed(learned: Learned, isAddress: string -> bool, q: Request, chain: Chain, id: Id) {
    && id in q.ids && isAddress(id) && Facts.Known(q.tracked, id)
    && id in learned && learned[id] in chain && exists k :: Best(chain, id, k) && chain[learned[id]] != chain[k]
  }

  ghost predicate NoneShadowed(learned: Learned, isAddress: string -> bool, q: Request, chain: Chain) {
    forall id :: id in q.ids ==> !Shadowed(learned, isAddress, q, chain, id)
  }

  /** None of these escrows has two data entries. */
  ghost predicate OneDataEach(chain: Chain, ids: seq<Id>) {
    forall id :: id in ids ==> OneData(chain, id)
  }

  /** The keys two caches settle on hold the same entry. */
  lemma SameEntry(learned: Learned, isAddress: string -> bool, q: Request, chain: Chain, id: Id, k: Key, l: Key)
    requires LearnedOk(learned, isAddress) && OneData(chain, id) && !Shadowed(learned, isAddress, q, chain, id)
    requires id in q.ids && isAddress(id)
    requires Resolves(learned, q.tracked, chain, id, k) && Resolves(map[], q.tracked, chain, id, l)
    ensures k in chain && l in chain && k.Candidate? && l.Candidate? && k.id == l.id == id && chain[k] == chain[l]
  {
    if id in learned && learned[id] in chain {
      assert Best(chain, id, l);
    } else {
      ResolvesToOne(map[], q.tracked, chain, id, k, l);
    }
  }

  lemma SameExpectation(learned: Learned, isAddress: string -> bool, q: Request, chain: Chain, c: StateChange)
    requires LearnedOk(learned, isAddress) && OneData(chain, c.escrow)
    requires !Shadowed(learned, isAddress, q, chain, c.escrow)
    ensures Expected(learned, isAddress, q, chain, c) <==> Expected(map[], isAddress, q, chain, c)
  {
    var id := c.escrow;
    if id in q.ids && isAddress(id) && There(q.tracked, chain, id) {
      ResolvesIff(learned, isAddress, q.tracked, chain, id);
      ResolvesIff(map[], isAddress, q.tracked, chain, id);
      var k :| Resolves(learned, q.tracked, chain, id, k);
      var l :| Resolves(map[], q.tracked, chain, id, l);
      SameEntry(learned, isAddress, q, chain, id, k, l);
      ReportsOne(learned, isAddress, q, chain, c, k);
      ReportsOne(map[], isAddress, q, chain, c, l);
    }
  }

  lemma ReportsOne(learned: Learned, isAddress: string -> bool, q: Request, chain: Chain, c: StateChange, k: Key)
    requires LearnedOk(learned, isAddress) && OneData(chain, c.escrow) && c.escrow in q.ids && isAddress(c.escrow)
    requires Resolves(learned, q.tracked, chain, c.escrow, k) && k.Candidate? && k in chain
    ensures Reported(learned, isAddress, q, chain, c) <==> c == Current(chain, k, q.ledger, q.closedAt)
  {
    if Reported(learned, isAddress, q, chain, c) {
      var l :| Resolves(learned, q.tracked, chain, c.escrow, l) && Tells(chain, l, q.ledger, q.closedAt, c);
      ResolvesToOne(learned, q.tracked, chain, c.escrow, k, l);
    }
    if c == Current(chain, k, q.ledger, q.closedAt) {
      assert Tells(chain, k, q.ledger, q.closedAt, c);
    }
  }

  /** Where no two data entries compete, an exact list holds all that is expected. */
  lemma ExpectedExactly(out: seq<StateChange>, learned: Learned, isAddress: string -> bool, q: Request, chain: Chain,
                        c: StateChange)
    requires Exact(out, learned, isAddress, q, chain) && LearnedOk(learned, isAddress) && OneData(chain, c.escrow)
    ensures c in out <==> Expected(learned, isAddress, q, chain, c)
  {
    if Expected(learned, isAddress, q, chain, c) {
      assert Served(out, learned, isAddress, q, chain, c.escrow);
      if There(q.tracked, chain, c.escrow) {
        var k :| Resolves(learned, q.tracked, chain, c.escrow, k) && Settled(out, q, chain, c.escrow, k);
        ReportsOne(learned, isAddress, q, chain, c, k);
      }
    }
  }

  /** Two fetches that agree, once neither of them failed. */
  ghost predicate Agree(f: Fetch, g: Fetch) {
    f.changes.Some? && g.changes.Some? ==> f.changes == g.changes
  }

  /** With no escrow shadowed, any reachable cache returns what an empty one returns, filter and guard included. */
  lemma CacheAgreesWithPlainQuery(m: Memory, rpc: Rpc, isAddress: string -> bool, q: Request, chain: Chain)
    requires Honest(rpc, chain) && LearnedOk(m.learned, isAddress) && Distinct(q.ids)
    requires OneDataEach(chain, q.ids) && NoneShadowed(m.learned, isAddress, q, chain)
    ensures Agree(FetchOf(m, rpc, isAddress, q), FetchOf(m.(learned := map[]), rpc, isAddress, q))
  {
    var plain := m.(learned := map[]);
    HonestFetch(m, rpc, isAddress, q, chain);
    HonestFetch(plain, rpc, isAddress, q, chain);
    var f, g := FetchOf(m, rpc, isAddress, q), FetchOf(plain, rpc, isAddress, q);
    if f.changes.Some? && g.changes.Some? {
      SameMeaning(f.changes.value, g.changes.value, m.learned, isAddress, q, chain);
    }
  }

  lemma SameMeaning(a: seq<StateChange>, b: seq<StateChange>, learned: Learned, isAddress: string -> bool, q: Request,
                    chain: Chain)
    requires Exact(a, learned, isAddress, q, chain) && Exact(b, map[], isAddress, q, chain)
    requires LearnedOk(learned, isAddress)
    requires OneDataEach(chain, q.ids) && NoneShadowed(learned, isAddress, q, chain)
    ensures a == b
  {
    forall c
      ensures c in a <==> c in b
    {
      if c.escrow in q.ids {
        ExpectedExactly(a, learned, isAddress, q, chain, c);
        ExpectedExactly(b, map[], isAddress, q, chain, c);
        SameExpectation(learned, isAddress, q, chain, c);
      } else {
        assert c in a ==> Expected(learned, isAddress, q, chain, c);
        assert c in b ==> Expected(map[], isAddress, q, chain, c);
      }
    }
    StrictUnique(a, b);
  }

  /** Unfiltered, and unless a request fails, the condition is exact: one shadowed escrow and the answers differ. */
  lemma CacheAgreesIff(m: Memory, rpc: Rpc, isAddress: string -> bool, q: Request, chain: Chain)
    requires Honest(rpc, chain) && LearnedOk(m.learned, isAddress) && Distinct(q.ids) && q.since == 0
    requires OneDataEach(chain, q.ids)
    ensures var f, g := FetchOf(m, rpc, isAddress, q), FetchOf(m.(learned := map[]), rpc, isAddress, q);
      f.changes.Some? && g.changes.Some? ==> (f.changes == g.changes <==> NoneShadowed(m.learned, isAddress, q, chain))
  {
    var plain := m.(learned := map[]);
    HonestFetch(m, rpc, isAddress, q, chain);
    HonestFetch(plain, rpc, isAddress, q, chain);
    var f, g := FetchOf(m, rpc, isAddress, q), FetchOf(plain, rpc, isAddress, q);
    if NoneShadowed(m.learned, isAddress, q, chain) {
      CacheAgreesWithPlainQuery(m, rpc, isAddress, q, chain);
    } else if f.changes.Some? && g.changes.Some? {
      var id :| id in q.ids && Shadowed(m.learned, isAddress, q, chain, id);
      ShadowTells(f.changes.value, g.changes.value, m.learned, isAddress, q, chain, id);
    }
  }

  lemma ShadowTells(a: seq<StateChange>, b: seq<StateChange>, learned: Learned, isAddress: string -> bool, q: Request,
                    chain: Chain, id: Id)
    requires Exact(a, learned, isAddress, q, chain) && Exact(b, map[], isAddress, q, chain) && q.since == 0
    requires LearnedOk(learned, isAddress) && OneData(chain, id) && Shadowed(learned, isAddress, q, chain, id)
    ensures a != b
  {
    var k := learned[id];
    var l :| Best(chain, id, l) && chain[k] != chain[l];
    assert k == Candidate(id, k.shape);
    var c, d := Current(chain, k, q.ledger, q.closedAt), Current(chain, l, q.ledger, q.closedAt);
    ReportsOne(learned, isAddress, q, chain, c, k);
    ReportsOne(map[], isAddress, q, chain, c, l);
    ExpectedExactly(a, learned, isAddress, q, chain, c);
    ExpectedExactly(b, map[], isAddress, q, chain, c);
    assert c != d;
  }

  // ---- Any RPC that answers only about what it was asked --------------------------------------------

  ghost predicate Owned(e: Entry, keys: seq<Key>) {
    e.body.ContractData? ==>
      exists k :: k in keys && k.Candidate? && k.id == e.body.contract && (e.echo.Some? ==> e.echo == Some(k))
  }

  ghost predicate Within(es: seq<Entry>, keys: seq<Key>) {
    forall e {:trigger Owned(e, keys)} :: e in es ==> Owned(e, keys)
  }

  /** No honesty at all: it may withhold, repeat or misreport, only not answer about strangers. */
  ghost predicate Restricted(rpc: Rpc) {
    forall n: nat, keys: seq<Key> :: rpc(n, keys).Some? ==> Within(rpc(n, keys).value, keys)
  }

  lemma {:induction false} WithinAskAll(rpc: Rpc, n: nat, chunks: seq<seq<Key>>)
    requires Restricted(rpc) && AskAll(rpc, n, chunks).entries.Some?
    ensures Within(AskAll(rpc, n, chunks).entries.value, Joined(chunks))
    decreases |chunks|
  {
    if |chunks| > 0 {
      WithinAskAll(rpc, n + 1, chunks[1..]);
      var later := AskAll(rpc, n + 1, chunks[1..]).entries.value;
      WithinConcat(rpc(n, chunks[0]).value, later, chunks[0], Joined(chunks[1..]));
    }
  }

  lemma WithinConcat(a: seq<Entry>, b: seq<Entry>, ka: seq<Key>, kb: seq<Key>)
    requires Within(a, ka) && Within(b, kb)
    ensures Within(a + b, ka + kb)
  {
    forall e | e in a + b
      ensures Owned(e, ka + kb)
    {
      if e in a {
        assert Owned(e, ka);
        if e.body.ContractData? {
          var k :| k in ka && k.Candidate? && k.id == e.body.contract && (e.echo.Some? ==> e.echo == Some(k));
          assert k in ka + kb;
        }
      } else {
        assert Owned(e, kb);
        if e.body.ContractData? {
          var k :| k in kb && k.Candidate? && k.id == e.body.contract && (e.echo.Some? ==> e.echo == Some(k));
          assert k in ka + kb;
        }
      }
    }
  }

  /** A round stays within its ids, learns only candidate keys, and reports each escrow once. */
  ghost predicate RoundWithin(r: Round, isAddress: string -> bool, ids: seq<Id>) {
    && LearnedOk(r.learned, isAddress)
    && (r.changes.Some? ==>
          && Strict(r.changes.value)
          && forall c :: c in r.changes.value ==> c.escrow in ids && c.change == UPDATED)
  }

  lemma RestrictedRound(learned: Learned, calls: nat, rpc: Rpc, isAddress: string -> bool, q: Request, ids: seq<Id>)
    requires Restricted(rpc) && LearnedOk(learned, isAddress)
    ensures RoundWithin(AskRound(learned, calls, rpc, isAddress, q, ids), isAddress, ids)
  {
    var a := Query(rpc, calls, learned, isAddress, ids);
    if a.entries.Some? {
      var keys := AllKeys(learned, isAddress, ids);
      if |keys| > 0 {
        WithinAskAll(rpc, calls, Chunks(keys, MAX_LEDGER_ENTRY_KEYS));
        ChunksJoin(keys, MAX_LEDGER_ENTRY_KEYS);
      }
      var picks := Picks(a.entries.value, q.tracked);
      forall id | id in picks
        ensures PickWithin(picks, id, isAddress, ids)
      {
        RestrictedPick(a.entries.value, learned, isAddress, q.tracked, ids, id);
      }
      BuiltChanges(picks, q.ledger, q.closedAt);
      RestrictedLearned(learned, isAddress, picks, ids);
    }
  }

  ghost predicate PickWithin(picks: map<Id, Entry>, id: Id, isAddress: string -> bool, ids: seq<Id>)
    requires id in picks
  {
    id in ids && (picks[id].echo.Some? ==>
        picks[id].echo.value.Candidate? && picks[id].echo.value.id == id && isAddress(id))
  }

  lemma RestrictedPick(es: seq<Entry>, learned: Learned, isAddress: string -> bool, tracked: set<Id>, ids: seq<Id>,
                       id: Id)
    requires Within(es, AllKeys(learned, isAddress, ids)) && LearnedOk(learned, isAddress)
    requires id in Picks(es, tracked)
    ensures PickWithin(Picks(es, tracked), id, isAddress, ids)
  {
    PickedEntry(es, tracked, id);
    var e := Picks(es, tracked)[id];
    assert Owned(e, AllKeys(learned, isAddress, ids));
    var k :| k in AllKeys(learned, isAddress, ids) && k.Candidate? && k.id == id
          && (e.echo.Some? ==> e.echo == Some(k));
    KeysAsked(learned, isAddress, ids, k);
    var owner :| owner in ids && k in KeysFor(learned, isAddress, owner);
    KeyOwner(learned, isAddress, owner, k);
  }

  lemma RestrictedLearned(learned: Learned, isAddress: string -> bool, picks: map<Id, Entry>, ids: seq<Id>)
    requires LearnedOk(learned, isAddress) && forall id :: id in picks ==> PickWithin(picks, id, isAddress, ids)
    ensures LearnedOk(LearnedAfter(learned, picks), isAddress)
  {
  }

  /** Over both rounds every requested escrow is reported at most once, and no one else is. */
  lemma RestrictedGather(m: Memory, rpc: Rpc, isAddress: string -> bool, q: Request)
    requires Restricted(rpc) && LearnedOk(m.learned, isAddress)
    ensures var g := Gather(m, rpc, isAddress, q);
      && LearnedOk(g.learned, isAddress)
      && (g.changes.Some? ==>
            && DistinctChanges(g.changes.value)
            && forall c :: c in g.changes.value ==> c.escrow in q.ids && c.change == UPDATED)
  {
    RestrictedRound(m.learned, m.calls, rpc, isAddress, q, q.ids);
    var first := AskRound(m.learned, m.calls, rpc, isAddress, q, q.ids);
    if first.changes.Some? {
      StrictDistinct(first.changes.value);
      var relearn := Stale(m, isAddress, q, first);
      StaleWithin(m, isAddress, q, first);
      if |relearn| > 0 {
        var kept := first.learned - Elements(relearn);
        RestrictedRound(kept, first.calls, rpc, isAddress, q, relearn);
        var second := AskRound(kept, first.calls, rpc, isAddress, q, relearn);
        if second.changes.Some? {
          StrictDistinct(second.changes.value);
          JoinDistinct(first.changes.value, second.changes.value, relearn);
        }
      }
    }
  }

  lemma StaleWithin(m: Memory, isAddress: string -> bool, q: Request, first: Round)
    requires first.changes.Some?
    ensures forall id :: id in Stale(m, isAddress, q, first) ==> id in q.ids && id !in IdsIn(first.changes.value)
    ensures forall c :: c in first.changes.value ==> c.escrow !in Stale(m, isAddress, q, first)
    ensures |Stale(m, isAddress, q, first)| <= |q.ids|
  {
    var requested := Asked(m.learned, isAddress, q.ids);
    AskedMembers(m.learned, isAddress, q.ids);
    AskedLength(m.learned, isAddress, q.ids);
    MissingMembers(requested, IdsIn(first.changes.value));
    MissingLength(requested, IdsIn(first.changes.value));
    ShortcutsMembers(first.learned, Missing(requested, IdsIn(first.changes.value)));
  }

  lemma {:induction false} AskedLength(learned: Learned, isAddress: string -> bool, ids: seq<Id>)
    ensures |Asked(learned, isAddress, ids)| <= |ids|
  {
    if |ids| > 0 {
      AskedLength(learned, isAddress, ids[..|ids| - 1]);
    }
  }

  lemma {:induction false} MissingLength(requested: seq<Id>, present: set<Id>)
    ensures |Missing(requested, present)| <= |requested|
  {
    if |requested| > 0 {
      MissingLength(requested[..|requested| - 1], present);
    }
  }

  // ---- What a detector remembers of such nodes -------------------------------------------------------

  ghost predicate AllRestricted(nodes: seq<Rpc>) {
    forall k :: 0 <= k < |nodes| ==> Restricted(nodes[k])
  }

  /** As long as every node answered only about what it was asked, only candidate keys were learned. */
  ghost predicate Careful(learned: Learned, nodes: seq<Rpc>, isAddress: string -> bool) {
    AllRestricted(nodes) ==> LearnedOk(learned, isAddress)
  }

  /** Every fetch, succeed or fail, keeps it so. */
  lemma FetchStaysCareful(m: Memory, rpc: Rpc, isAddress: string -> bool, q: Request, nodes: seq<Rpc>)
    requires Careful(m.learned, nodes, isAddress)
    ensures Careful(FetchOf(m, rpc, isAddress, q).memory.learned, nodes + [rpc], isAddress)
    ensures AllRestricted(nodes + [rpc]) ==> LearnedOk(m.learned, isAddress)
  {
    if AllRestricted(nodes + [rpc]) {
      AllRestrictedPrefix(nodes, nodes + [rpc]);
      assert (nodes + [rpc])[|nodes|] == rpc;
      RestrictedGather(m, rpc, isAddress, q);
    }
  }

  lemma AllRestrictedPrefix(nodes: seq<Rpc>, more: seq<Rpc>)
    requires nodes <= more && AllRestricted(more)
    ensures AllRestricted(nodes)
  {
    forall k | 0 <= k < |nodes|
      ensures Restricted(nodes[k])
    {
      assert nodes[k] == more[k];
    }
  }

  /** An honest node answers only about what it was asked. */
  lemma HonestIsRestricted(rpc: Rpc, chain: Chain)
    requires Honest(rpc, chain)
    ensures Restricted(rpc)
  {
    forall n: nat, keys: seq<Key> | rpc(n, keys).Some?
      ensures Within(rpc(n, keys).value, keys)
    {
      assert Faithful(rpc(n, keys).value, keys, chain);
      FaithfulIsWithin(rpc(n, keys).value, keys, chain);
    }
  }

  lemma FaithfulIsWithin(es: seq<Entry>, keys: seq<Key>, chain: Chain)
    requires Faithful(es, keys, chain)
    ensures Within(es, keys)
  {
    forall e | e in es
      ensures Owned(e, keys)
    {
      assert Justified(e, keys, chain);
    }
  }

  // ---- The removal guard conserves every requested escrow -------------------------------------------

  ghost function RemovedIn(cs: seq<StateChange>): set<Id> {
    set c | c in cs && c.change == REMOVED :: c.escrow
  }

  ghost function UpdatedIn(cs: seq<StateChange>): set<Id> {
    set c | c in cs && c.change == UPDATED :: c.escrow
  }

  /**
   Whatever the RPC answers about distinct ids: before filtering, every requested
   escrow is updated, removed or withheld, exactly one of them; the removals are
   withheld, and counted, if and only if ten or more escrows were requested and more
   than half of them would be removed.
   */
  lemma GuardConserves(m: Memory, rpc: Rpc, isAddress: string -> bool, q: Request)
    requires Restricted(rpc) && LearnedOk(m.learned, isAddress) && Distinct(q.ids) && q.since == 0
    ensures Conserved(m.suppressed, |Asked(m.learned, isAddress, q.ids)|, FetchOf(m, rpc, isAddress, q))
    ensures FetchOf(m, rpc, isAddress, q).changes.Some? ==>
        LearnedOk(FetchOf(m, rpc, isAddress, q).memory.learned, isAddress)
  {
    RestrictedGather(m, rpc, isAddress, q);
    var g := Gather(m, rpc, isAddress, q);
    if |q.ids| > 0 && g.changes.Some? {
      var requested := Asked(m.learned, isAddress, q.ids);
      AskedDistinct(m.learned, isAddress, q.ids);
      AskedMembers(m.learned, isAddress, q.ids);
      forall c | c in g.changes.value
        ensures c.escrow in requested
      {
        GatheredWasAsked(m, rpc, isAddress, q, c);
      }
      JudgeConserves(m.suppressed, requested, g, q);
    } else {
      assert UpdatedIn([]) == {} && RemovedIn([]) == {};
    }
  }

  /**
   An unfiltered fetch of `requested` escrows that failed, or that updated, removed
   or withheld each of them. Those without an update are withheld, all of them and
   all counted, exactly when ten or more were requested and more than half of them
   went without; otherwise all of them are removed.
   */
  ghost predicate Conserved(suppressed: nat, requested: nat, f: Fetch) {
    f.changes.Some? ==>
      var out := f.changes.value;
      var absent := requested - |UpdatedIn(out)|;
      && UpdatedIn(out) !! RemovedIn(out) && Strict(out) && absent >= 0
      && if requested >= 10 && 2 * absent > requested
         then RemovedIn(out) == {} && f.memory.suppressed == suppressed + absent
         else |RemovedIn(out)| == absent && f.memory.suppressed == suppressed
  }

  lemma GatheredWasAsked(m: Memory, rpc: Rpc, isAddress: string -> bool, q: Request, c: StateChange)
    requires Restricted(rpc) && LearnedOk(m.learned, isAddress)
    ensures var g := Gather(m, rpc, isAddress, q);
      g.changes.Some? && c in g.changes.value ==> c.escrow in Asked(m.learned, isAddress, q.ids)
  {
    AskedMembers(m.learned, isAddress, q.ids);
    var first := AskRound(m.learned, m.calls, rpc, isAddress, q, q.ids);
    var g := Gather(m, rpc, isAddress, q);
    if g.changes.None? || c !in g.changes.value {
    } else if c in first.changes.value {
      ReportedWasAsked(m.learned, m.calls, rpc, isAddress, q, q.ids, c);
    } else {
      var relearn := Stale(m, isAddress, q, first);
      var kept := first.learned - Elements(relearn);
      RestrictedRound(m.learned, m.calls, rpc, isAddress, q, q.ids);
      RestrictedRound(kept, first.calls, rpc, isAddress, q, relearn);
      StaleWasAsked(m, isAddress, q, first, c.escrow);
    }
  }

  lemma StaleWasAsked(m: Memory, isAddress: string -> bool, q: Request, first: Round, id: Id)
    requires first.changes.Some? && id in Stale(m, isAddress, q, first)
    ensures id in Asked(m.learned, isAddress, q.ids)
  {
    var requested := Asked(m.learned, isAddress, q.ids);
    MissingMembers(requested, IdsIn(first.changes.value));
    ShortcutsMembers(first.learned, Missing(requested, IdsIn(first.changes.value)));
  }

  lemma ReportedWasAsked(learned: Learned, calls: nat, rpc: Rpc, isAddress: string -> bool, q: Request, ids: seq<Id>,
                         c: StateChange)
    requires Restricted(rpc) && LearnedOk(learned, isAddress)
    requires AskRound(learned, calls, rpc, isAddress, q, ids).changes.Some?
    requires c in AskRound(learned, calls, rpc, isAddress, q, ids).changes.value
    ensures c.escrow in Asked(learned, isAddress, ids)
  {
    var a := Query(rpc, calls, learned, isAddress, ids);
    var keys := AllKeys(learned, isAddress, ids);
    if |keys| > 0 {
      WithinAskAll(rpc, calls, Chunks(keys, MAX_LEDGER_ENTRY_KEYS));
      ChunksJoin(keys, MAX_LEDGER_ENTRY_KEYS);
    }
    var picks := Picks(a.entries.value, q.tracked);
    BuiltChanges(picks, q.ledger, q.closedAt);
    PickedEntry(a.entries.value, q.tracked, c.escrow);
    assert Owned(picks[c.escrow], keys);
    var k :| k in keys && k.Candidate? && k.id == c.escrow;
    KeysAsked(learned, isAddress, ids, k);
    var owner :| owner in ids && k in KeysFor(learned, isAddress, owner);
    KeyOwner(learned, isAddress, owner, k);
    AskedMembers(learned, isAddress, ids);
  }

  lemma JudgeConserves(suppressed: nat, requested: seq<Id>, g: Round, q: Request)
    requires Distinct(requested) && g.changes.Some? && DistinctChanges(g.changes.value) && q.since == 0
    requires forall c :: c in g.changes.value ==> c.escrow in requested && c.change == UPDATED
    ensures Conserved(suppressed, |requested|, Judge(suppressed, requested, g, q))
  {
    var cs := g.changes.value;
    var missing := Missing(requested, IdsIn(cs));
    MissingMembers(requested, IdsIn(cs));
    MissingDistinct(requested, IdsIn(cs));
    SplitRequested(requested, missing, IdsIn(cs));
    RemovalsAppended(cs, missing, q.ledger, q.closedAt);
    var all := cs + Removals(missing, q.ledger, q.closedAt);
    SortedStrictly(cs);
    SortedStrictly(all);
    UpdatesAndRemovals(cs, missing, SortByEscrow(cs), q.ledger, q.closedAt, false);
    UpdatesAndRemovals(cs, missing, SortByEscrow(all), q.ledger, q.closedAt, true);
  }

  lemma SplitRequested(requested: seq<Id>, missing: seq<Id>, present: set<Id>)
    requires Distinct(requested) && Distinct(missing)
    requires present <= Elements(requested)
    requires forall id :: id in missing <==> id in requested && id !in present
    ensures |requested| == |missing| + |present| && |Elements(missing)| == |missing|
  {
    DistinctSize(requested);
    DistinctSize(missing);
    assert Elements(requested) == Elements(missing) + present;
  }

  lemma UpdatesAndRemovals(cs: seq<StateChange>, missing: seq<Id>, out: seq<StateChange>, ledger: u32, closedAt: int,
                           published: bool)
    requires forall c :: c in cs ==> c.change == UPDATED
    requires forall c :: c in out <==>
        c in cs || (published && c.escrow in missing && c == Removal(c.escrow, ledger, closedAt))
    ensures UpdatedIn(out) == IdsIn(cs)
    ensures RemovedIn(out) == if published then Elements(missing) else {}
  {
    assert UPDATED[0] != REMOVED[0];
    forall id | published && id in missing
      ensures id in RemovedIn(out)
    {
      assert Removal(id, ledger, closedAt) in out;
    }
  }

  ghost predicate SameRemovals(f: Fetch, g: Fetch) {
    && f.memory == g.memory && f.changes.Some? == g.changes.Some?
    && (f.changes.Some? ==> RemovedIn(f.changes.value) == RemovedIn(g.changes.value))
  }

  /** The changed-since filter never touches a removal. */
  lemma FilterKeepsRemovals(m: Memory, rpc: Rpc, isAddress: string -> bool, q: Request)
    ensures SameRemovals(FetchOf(m, rpc, isAddress, q), FetchOf(m, rpc, isAddress, q.(since := 0)))
  {
    SinceIsNotAsked(m, rpc, isAddress, q);
    if |q.ids| > 0 && Gather(m, rpc, isAddress, q).changes.Some? {
      JudgeFilters(m.suppressed, Asked(m.learned, isAddress, q.ids), Gather(m, rpc, isAddress, q), q);
    }
  }

  lemma SinceIsNotAsked(m: Memory, rpc: Rpc, isAddress: string -> bool, q: Request)
    ensures Gather(m, rpc, isAddress, q) == Gather(m, rpc, isAddress, q.(since := 0))
  {
  }

  lemma JudgeFilters(suppressed: nat, requested: seq<Id>, g: Round, q: Request)
    requires g.changes.Some?
    ensures var f, plain := Judge(suppressed, requested, g, q), Judge(suppressed, requested, g, q.(since := 0));
      f.memory == plain.memory && RemovedIn(f.changes.value) == RemovedIn(plain.changes.value)
  {
    KeptChanges(Judge(suppressed, requested, g, q.(since := 0)).changes.value, q.since);
  }

  // ---- The price of a fetch ------------------------------------------------------------------------

  function Cost(learned: Learned, id: Id): nat {
    if id in learned then 1 else CANDIDATE_KEYS_PER_ESCROW
  }

  function TotalCost(learned: Learned, ids: seq<Id>): nat {
    if |ids| == 0 then 0 else TotalCost(learned, ids[..|ids| - 1]) + Cost(learned, ids[|ids| - 1])
  }

  lemma {:induction false} KeysWithinCost(learned: Learned, isAddress: string -> bool, ids: seq<Id>)
    ensures |AllKeys(learned, isAddress, ids)| <= TotalCost(learned, ids) <= 4 * |ids|
    ensures |ids| <= TotalCost(learned, ids)
  {
    if |ids| > 0 {
      KeysWithinCost(learned, isAddress, ids[..|ids| - 1]);
    }
  }

  lemma QueryPrice(rpc: Rpc, n: nat, learned: Learned, isAddress: string -> bool, ids: seq<Id>)
    ensures n <= Query(rpc, n, learned, isAddress, ids).calls
    ensures TotalCost(learned, ids) <= 200 ==> Query(rpc, n, learned, isAddress, ids).calls <= n + 1
    ensures |ids| <= 200 ==> Query(rpc, n, learned, isAddress, ids).calls <= n + 4
  {
    var keys := AllKeys(learned, isAddress, ids);
    KeysWithinCost(learned, isAddress, ids);
    ChunkCount(keys);
  }

  /**
   A fetch whose batch fits the key budget costs at most one request, plus at
   most four to re-ask what went stale, against any RPC whatsoever; every request
   carries at most 200 keys.
   */
  lemma BatchPrice(m: Memory, rpc: Rpc, isAddress: string -> bool, q: Request)
    requires TotalCost(m.learned, q.ids) <= MAX_LEDGER_ENTRY_KEYS
    ensures m.calls <= FetchOf(m, rpc, isAddress, q).memory.calls <= m.calls + 5
    ensures forall c :: c in Chunks(AllKeys(m.learned, isAddress, q.ids), MAX_LEDGER_ENTRY_KEYS) ==> |c| <= 200
  {
    GatherPrice(m, rpc, isAddress, q);
    FetchCalls(m, rpc, isAddress, q);
  }

  lemma FetchCalls(m: Memory, rpc: Rpc, isAddress: string -> bool, q: Request)
    ensures FetchOf(m, rpc, isAddress, q).memory.calls ==
      if |q.ids| == 0 then m.calls else Gather(m, rpc, isAddress, q).calls
  {
  }

  lemma GatherPrice(m: Memory, rpc: Rpc, isAddress: string -> bool, q: Request)
    requires TotalCost(m.learned, q.ids) <= MAX_LEDGER_ENTRY_KEYS
    ensures m.calls <= Gather(m, rpc, isAddress, q).calls <= m.calls + 5
  {
    KeysWithinCost(m.learned, isAddress, q.ids);
    RoundPrice(m.learned, m.calls, rpc, isAddress, q, q.ids);
    var first := AskRound(m.learned, m.calls, rpc, isAddress, q, q.ids);
    if first.changes.Some? {
      var relearn := Stale(m, isAddress, q, first);
      StaleWithin(m, isAddress, q, first);
      RoundPrice(first.learned - Elements(relearn), first.calls, rpc, isAddress, q, relearn);
    }
  }

  lemma RoundPrice(learned: Learned, calls: nat, rpc: Rpc, isAddress: string -> bool, q: Request, ids: seq<Id>)
    requires |ids| <= 200
    ensures calls <= AskRound(learned, calls, rpc, isAddress, q, ids).calls <= calls + 4
    ensures TotalCost(learned, ids) <= 200 ==> AskRound(learned, calls, rpc, isAddress, q, ids).calls <= calls + 1
  {
    QueryPrice(rpc, calls, learned, isAddress, ids);
  }

  // ---- Every change carries the stamp it was asked under ---------------------------------------------

  ghost predicate StampedAs(cs: seq<StateChange>, ledger: u32, closedAt: int) {
    forall c :: c in cs ==> c.ledger == ledger && c.closedAt == closedAt
  }

  lemma {:induction false} BuiltStamped(picks: map<Id, Entry>, ids: seq<Id>, ledger: u32, closedAt: int)
    ensures StampedAs(ChangesFor(picks, ids, ledger, closedAt), ledger, closedAt)
  {
    if |ids| > 0 {
      BuiltStamped(picks, ids[..|ids| - 1], ledger, closedAt);
    }
  }

  lemma RoundStamped(learned: Learned, calls: nat, rpc: Rpc, isAddress: string -> bool, q: Request, ids: seq<Id>)
    ensures var r := AskRound(learned, calls, rpc, isAddress, q, ids);
      r.changes.Some? ==> StampedAs(r.changes.value, q.ledger, q.closedAt)
  {
    var a := Query(rpc, calls, learned, isAddress, ids);
    if a.entries.Some? {
      var picks := Picks(a.entries.value, q.tracked);
      BuiltStamped(picks, SortedIds(picks.Keys), q.ledger, q.closedAt);
    }
  }

  lemma GatherStamped(m: Memory, rpc: Rpc, isAddress: string -> bool, q: Request)
    ensures var g := Gather(m, rpc, isAddress, q);
      g.changes.Some? ==> StampedAs(g.changes.value, q.ledger, q.closedAt)
  {
    RoundStamped(m.learned, m.calls, rpc, isAddress, q, q.ids);
    var first := AskRound(m.learned, m.calls, rpc, isAddress, q, q.ids);
    if first.changes.Some? {
      var relearn := Stale(m, isAddress, q, first);
      RoundStamped(first.learned - Elements(relearn), first.calls, rpc, isAddress, q, relearn);
    }
  }

  /** Whatever the RPC answers, every change of a fetch is stamped with the ledger and close time it was asked under. */
  lemma FetchStamped(m: Memory, rpc: Rpc, isAddress: string -> bool, q: Request)
    ensures var f := FetchOf(m, rpc, isAddress, q);
      f.changes.Some? ==> StampedAs(f.changes.value, q.ledger, q.closedAt)
  {
    GatherStamped(m, rpc, isAddress, q);
    if |q.ids| > 0 && Gather(m, rpc, isAddress, q).changes.Some? {
      JudgeStamped(m.suppressed, Asked(m.learned, isAddress, q.ids), Gather(m, rpc, isAddress, q), q);
    }
  }

  lemma JudgeStamped(suppressed: nat, requested: seq<Id>, g: Round, q: Request)
    requires g.changes.Some? && StampedAs(g.changes.value, q.ledger, q.closedAt)
    ensures StampedAs(Judge(suppressed, requested, g, q).changes.value, q.ledger, q.closedAt)
  {
    var missing := Missing(requested, IdsIn(g.changes.value));
    var all := g.changes.value + Removals(missing, q.ledger, q.closedAt);
    KeptChanges(SortByEscrow(g.changes.value), q.since);
    KeptChanges(SortByEscrow(all), q.since);
  }
}
