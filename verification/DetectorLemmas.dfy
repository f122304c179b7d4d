/** Facts about the detector's building blocks, for every RPC. */
module DetectorLemmas {
  import opened Base
  import opened Ids
  import opened Envelopes
  import opened Detector

  // ---- Order and distinctness of changes ---------------------------------------------------

  ghost predicate Strict(cs: seq<StateChange>) {
    forall i, j :: 0 <= i < j < |cs| ==> Less(cs[i].escrow, cs[j].escrow)
  }

  ghost predicate DistinctChanges(cs: seq<StateChange>) {
    forall i, j :: 0 <= i < j < |cs| ==> cs[i].escrow != cs[j].escrow
  }

  lemma {:induction false} InsertKeepsStrict(c: StateChange, cs: seq<StateChange>)
    requires Strict(cs) && c.escrow !in IdsIn(cs)
    ensures Strict(InsertChange(c, cs))
  {
    if |cs| > 0 {
      if Less(c.escrow, cs[0].escrow) {
        forall j | 0 <= j < |cs|
          ensures Less(c.escrow, cs[j].escrow)
        {
          if j > 0 {
            LessTransitive(c.escrow, cs[0].escrow, cs[j].escrow);
          }
        }
      } else {
        assert cs[0] in cs;
        LessTotal(c.escrow, cs[0].escrow);
        assert forall x :: x in cs[1..] ==> x in cs;
        InsertKeepsStrict(c, cs[1..]);
        var rest := InsertChange(c, cs[1..]);
        forall j | 0 <= j < |rest|
          ensures Less(cs[0].escrow, rest[j].escrow)
        {
          assert rest[j] in rest;
          if rest[j] != c {
            var k :| 0 <= k < |cs[1..]| && cs[1..][k] == rest[j];
            assert cs[k + 1] == rest[j];
          }
        }
      }
    }
  }

  lemma {:induction false} SortedStrictly(cs: seq<StateChange>)
    requires DistinctChanges(cs)
    ensures Strict(SortByEscrow(cs))
  {
    if |cs| > 0 {
      var n := |cs| - 1;
      SortedStrictly(cs[..n]);
      InsertKeepsStrict(cs[n], SortByEscrow(cs[..n]));
    }
  }

  lemma {:induction false} KeptChanges(cs: seq<StateChange>, since: u32)
    ensures forall c :: c in KeepChanged(cs, since) <==> c in cs && (c.change == REMOVED || c.lastModified >= since)
  {
    if |cs| > 0 {
      var n := |cs| - 1;
      assert cs == cs[..n] + [cs[n]];
      KeptChanges(cs[..n], since);
    }
  }

  lemma {:induction false} KeptStrict(cs: seq<StateChange>, since: u32)
    requires Strict(cs)
    ensures Strict(KeepChanged(cs, since))
  {
    if |cs| > 0 {
      var n := |cs| - 1;
      KeptStrict(cs[..n], since);
      var init := KeepChanged(cs[..n], since);
      KeptChanges(cs[..n], since);
      forall i | 0 <= i < |init|
        ensures Less(init[i].escrow, cs[n].escrow)
      {
        assert init[i] in init;
        var k :| 0 <= k < n && cs[..n][k] == init[i];
        assert cs[k] == init[i];
      }
    }
  }

  /** What survives the changed-since filter, and that it keeps the order. */
  lemma FilteredChanges(cs: seq<StateChange>, since: u32)
    requires Strict(cs)
    ensures Strict(FilterUnchanged(cs, since))
    ensures forall c :: c in FilterUnchanged(cs, since) <==>
      c in cs && (since == 0 || c.change == REMOVED || c.lastModified >= since)
  {
    KeptStrict(cs, since);
    KeptChanges(cs, since);
  }

  lemma HasMember(a: seq<StateChange>)
    ensures a == [] || exists c :: c in a
  {
    if |a| > 0 {
      assert a[0] in a;
    }
  }

  lemma {:induction false} StrictUnique(a: seq<StateChange>, b: seq<StateChange>)
    requires Strict(a) && Strict(b)
    requires forall c :: c in a <==> c in b
    ensures a == b
  {
    if |a| == 0 || |b| == 0 {
      HasMember(a);
      HasMember(b);
    } else {
      assert a[0] in b && b[0] in a;
      var i :| 0 <= i < |b| && b[i] == a[0];
      var j :| 0 <= j < |a| && a[j] == b[0];
      if i > 0 && j > 0 {
        LessAsymmetric(a[0].escrow, a[j].escrow);
      }
      assert a[0] == b[0];
      forall c
        ensures c in a[1..] <==> c in b[1..]
      {
        StrictTail(a, c);
        StrictTail(b, c);
      }
      StrictUnique(a[1..], b[1..]);
      assert a == [a[0]] + a[1..] && b == [b[0]] + b[1..];
    }
  }

  lemma StrictTail(a: seq<StateChange>, c: StateChange)
    requires Strict(a) && |a| > 0
    ensures c in a[1..] <==> c in a && c != a[0]
  {
    if c in a[1..] {
      var i :| 1 <= i < |a| && a[i] == c;
      LessAsymmetric(a[0].escrow, a[i].escrow);
    }
  }

  lemma StrictDistinct(cs: seq<StateChange>)
    requires Strict(cs)
    ensures DistinctChanges(cs)
  {
    forall i, j | 0 <= i < j < |cs|
      ensures cs[i].escrow != cs[j].escrow
    {
      LessAsymmetric(cs[i].escrow, cs[j].escrow);
    }
  }

  // ---- Ids asked about, missing and re-asked ----------------------------------------------------

  lemma {:induction false} AskedMembers(learned: Learned, isAddress: string -> bool, ids: seq<Id>)
    ensures forall id :: id in Asked(learned, isAddress, ids) <==> id in ids && (id in learned || isAddress(id))
  {
    if |ids| > 0 {
      var n := |ids| - 1;
      assert ids == ids[..n] + [ids[n]];
      AskedMembers(learned, isAddress, ids[..n]);
    }
  }

  lemma {:induction false} AskedDistinct(learned: Learned, isAddress: string -> bool, ids: seq<Id>)
    requires Distinct(ids)
    ensures Distinct(Asked(learned, isAddress, ids))
  {
    if |ids| > 0 {
      var n := |ids| - 1;
      AskedDistinct(learned, isAddress, ids[..n]);
      AskedMembers(learned, isAddress, ids[..n]);
      NotInPrefix(ids, n);
    }
  }

  lemma NotInPrefix(ids: seq<Id>, n: nat)
    requires Distinct(ids) && n < |ids|
    ensures ids[n] !in ids[..n] && Distinct(ids[..n])
  {
  }

  lemma {:induction false} MissingMembers(requested: seq<Id>, present: set<Id>)
    ensures forall id :: id in Missing(requested, present) <==> id in requested && id !in present
  {
    if |requested| > 0 {
      var n := |requested| - 1;
      assert requested == requested[..n] + [requested[n]];
      MissingMembers(requested[..n], present);
    }
  }

  lemma {:induction false} MissingDistinct(requested: seq<Id>, present: set<Id>)
    requires Distinct(requested)
    ensures Distinct(Missing(requested, present))
  {
    if |requested| > 0 {
      var n := |requested| - 1;
      NotInPrefix(requested, n);
      MissingDistinct(requested[..n], present);
      MissingMembers(requested[..n], present);
    }
  }

  lemma {:induction false} ShortcutsMembers(learned: Learned, ids: seq<Id>)
    ensures Distinct(Shortcuts(learned, ids))
    ensures |Shortcuts(learned, ids)| <= |ids|
    ensures forall id :: id in Shortcuts(learned, ids) <==> id in ids && id in learned
  {
    if |ids| > 0 {
      var n := |ids| - 1;
      assert ids == ids[..n] + [ids[n]];
      ShortcutsMembers(learned, ids[..n]);
    }
  }

  // ---- Picks and what is learned from them ---------------------------------------------------------

  /** Who is picked, from where, and that an instance entry is picked only in default of a data entry. */
  lemma {:induction false} PickedEntry(entries: seq<Entry>, tracked: set<Id>, id: Id)
    ensures id in Picks(entries, tracked) <==> exists e :: e in entries && Concerns(e, tracked, id)
    ensures id in Picks(entries, tracked) ==>
      && Picks(entries, tracked)[id] in entries && Concerns(Picks(entries, tracked)[id], tracked, id)
      && (Picks(entries, tracked)[id].body.instanceKey ==>
            forall e :: e in entries && Concerns(e, tracked, id) ==> e.body.instanceKey)
  {
    if |entries| > 0 {
      var n := |entries| - 1;
      assert entries == entries[..n] + [entries[n]];
      PickedEntry(entries[..n], tracked, id);
      if e :| e in entries[..n] && Concerns(e, tracked, id) {
        assert e in entries;
      }
      if Concerns(entries[n], tracked, id) {
        assert entries[n] in entries;
      }
    }
  }

  /** Entry i is the escrow's first dedicated data entry. */
  predicate FirstData(entries: seq<Entry>, tracked: set<Id>, id: Id, i: nat) {
    && i < |entries| && Concerns(entries[i], tracked, id) && !entries[i].body.instanceKey
    && forall j :: 0 <= j < i && Concerns(entries[j], tracked, id) ==> entries[j].body.instanceKey
  }

  /** Entry i is the escrow's last instance entry, and it has no dedicated data entry. */
  predicate LastInstance(entries: seq<Entry>, tracked: set<Id>, id: Id, i: nat) {
    && i < |entries| && Concerns(entries[i], tracked, id)
    && forall j :: 0 <= j < |entries| && Concerns(entries[j], tracked, id) ==> entries[j].body.instanceKey && j <= i
  }

  /** Which entry of an escrow is picked: the first dedicated one listed, or for want of one the last instance. */
  lemma {:induction false} PickedIs(entries: seq<Entry>, tracked: set<Id>, id: Id, i: nat)
    requires FirstData(entries, tracked, id, i) || LastInstance(entries, tracked, id, i)
    ensures id in Picks(entries, tracked) && Picks(entries, tracked)[id] == entries[i]
  {
    var n := |entries| - 1;
    var init := entries[..n];
    assert forall j :: 0 <= j < n ==> init[j] == entries[j];
    if i < n {
      PickedIs(init, tracked, id, i);
      if LastInstance(entries, tracked, id, i) {
        assert !Concerns(entries[n], tracked, id);
      }
    } else {
      PickedEntry(init, tracked, id);
      if id in Picks(init, tracked) {
        assert Picks(init, tracked)[id] in init;
      }
    }
  }

  lemma {:induction false} ChangesForMembers(picks: map<Id, Entry>, ids: seq<Id>, ledger: u32, closedAt: int)
    ensures forall c :: c in ChangesFor(picks, ids, ledger, closedAt) <==>
      c.escrow in ids && c.escrow in picks && c == Updated(c.escrow, picks[c.escrow], ledger, closedAt)
  {
    if |ids| > 0 {
      var n := |ids| - 1;
      assert ids == ids[..n] + [ids[n]];
      ChangesForMembers(picks, ids[..n], ledger, closedAt);
    }
  }

  lemma {:induction false} ChangesForStrict(picks: map<Id, Entry>, ids: seq<Id>, ledger: u32, closedAt: int)
    requires Sorted(ids)
    ensures Strict(ChangesFor(picks, ids, ledger, closedAt))
  {
    if |ids| > 0 {
      var n := |ids| - 1;
      ChangesForStrict(picks, ids[..n], ledger, closedAt);
      ChangesForMembers(picks, ids[..n], ledger, closedAt);
      var init := ChangesFor(picks, ids[..n], ledger, closedAt);
      forall i | 0 <= i < |init|
        ensures Less(init[i].escrow, ids[n])
      {
        assert init[i] in init;
        var k :| 0 <= k < n && ids[..n][k] == init[i].escrow;
        assert ids[k] == init[i].escrow;
      }
    }
  }

  lemma BuiltChanges(picks: map<Id, Entry>, ledger: u32, closedAt: int)
    ensures Strict(Build(picks, ledger, closedAt))
    ensures IdsIn(Build(picks, ledger, closedAt)) == picks.Keys
    ensures forall c :: c in Build(picks, ledger, closedAt) <==>
      c.escrow in picks && c == Updated(c.escrow, picks[c.escrow], ledger, closedAt)
  {
    var ids := SortedIds(picks.Keys);
    ChangesForMembers(picks, ids, ledger, closedAt);
    ChangesForStrict(picks, ids, ledger, closedAt);
    forall id | id in picks
      ensures id in IdsIn(Build(picks, ledger, closedAt))
    {
      assert id in ids;
      assert Updated(id, picks[id], ledger, closedAt) in Build(picks, ledger, closedAt);
    }
  }

  // ---- Keys on the wire ---------------------------------------------------------------------------

  lemma {:induction false} KeysAsked(learned: Learned, isAddress: string -> bool, ids: seq<Id>, k: Key)
    ensures k in AllKeys(learned, isAddress, ids) <==> exists id :: id in ids && k in KeysFor(learned, isAddress, id)
  {
    if |ids| > 0 {
      var n := |ids| - 1;
      assert ids == ids[..n] + [ids[n]];
      KeysAsked(learned, isAddress, ids[..n], k);
    }
  }

  /** The requests of one query carry exactly its keys, in order, each within the cap. */
  function Joined(chunks: seq<seq<Key>>): seq<Key> {
    if |chunks| == 0 then [] else chunks[0] + Joined(chunks[1..])
  }

  lemma {:induction false} ChunksJoin(keys: seq<Key>, size: nat)
    requires size > 0
    ensures Joined(Chunks(keys, size)) == keys
    decreases |keys|
  {
    if |keys| <= size {
      assert Joined([keys]) == keys + Joined([]);
    } else {
      ChunksJoin(keys[size..], size);
      assert Chunks(keys, size)[1..] == Chunks(keys[size..], size);
      assert keys == keys[..size] + keys[size..];
    }
  }

  /** No request but a lone one is issued for nothing. */
  lemma {:induction false} ChunkCount(keys: seq<Key>)
    ensures |Chunks(keys, MAX_LEDGER_ENTRY_KEYS)| >= 1
    ensures |keys| <= 200 ==> |Chunks(keys, MAX_LEDGER_ENTRY_KEYS)| == 1
    ensures |keys| > 200 ==> 200 * (|Chunks(keys, MAX_LEDGER_ENTRY_KEYS)| - 1) < |keys|
    decreases |keys|
  {
    if |keys| > 200 {
      ChunkCount(keys[200..]);
    }
  }
}
