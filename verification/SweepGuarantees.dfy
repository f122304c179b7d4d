/**
 What the rotation guarantees over whole runs: every pass reads everyone it began
 with, at a bounded number of batches, and the changed-since filter never hides a
 modification from the first pass that can see it.
 */
module SweepGuarantees {
  import opened Base
  import opened Ids
  import opened Sweeper
  import Detector
  import DetectorTheorems
  import DetectorGuarantees
  import Facts
  import Nodes

  const BUDGET: int := 200

  // ---- One pass over a fixed registry --------------------------------------------------------

  /** The batches of a pass from position pos on; costs may change from batch to batch. */
  function Batches(ids: seq<Id>, costs: nat -> (Id -> int), pos: nat, k: nat): seq<seq<Id>>
    requires pos < |ids|
    decreases |ids| - pos
  {
    var end := BatchEnd(ids, costs(k), BUDGET, pos, pos, 0);
    BatchProgress(ids, costs(k), BUDGET, pos);
    if end >= |ids| then [ids[pos..end]] else [ids[pos..end]] + Batches(ids, costs, end, k + 1)
  }

  lemma BatchProgress(ids: seq<Id>, cost: Id -> int, budget: int, from: nat)
    requires from < |ids|
    ensures BatchEnd(ids, cost, budget, from, from, 0) > from
  {
    assert BatchEnd(ids, cost, budget, from, from, 0) ==
        BatchEnd(ids, cost, budget, from, from + 1, 0 + cost(ids[from]));
  }

  function Flat(batches: seq<seq<Id>>): seq<Id> {
    if |batches| == 0 then [] else batches[0] + Flat(batches[1..])
  }

  /** On a fixed registry the batches of a pass, laid end to end, are the sorted snapshot. */
  lemma {:induction false} PassIsTheSnapshot(ids: seq<Id>, costs: nat -> (Id -> int), pos: nat, k: nat)
    requires pos < |ids|
    ensures Flat(Batches(ids, costs, pos, k)) == ids[pos..]
    decreases |ids| - pos
  {
    var end := BatchEnd(ids, costs(k), BUDGET, pos, pos, 0);
    BatchProgress(ids, costs(k), BUDGET, pos);
    if end >= |ids| {
      assert Flat([ids[pos..end]]) == ids[pos..end] + Flat([]);
    } else {
      PassIsTheSnapshot(ids, costs, end, k + 1);
      assert Batches(ids, costs, pos, k)[1..] == Batches(ids, costs, end, k + 1);
      assert ids[pos..end] + ids[end..] == ids[pos..];
    }
  }

  function Spent(ids: seq<Id>, cost: Id -> int, from: nat, to: nat): int
    requires from <= to <= |ids|
  {
    if to == from then 0 else Spent(ids, cost, from, to - 1) + cost(ids[to - 1])
  }

  ghost predicate CostsInRange(cost: Id -> int) {
    forall id :: 1 <= cost(id) <= 4
  }

  /** A batch fits the budget unless it is a lone id, and a batch that stops early has spent at least 197. */
  lemma {:induction false} BatchSpends(ids: seq<Id>, cost: Id -> int, from: nat, i: nat)
    requires from <= i <= |ids| && CostsInRange(cost)
    requires i > from ==> Spent(ids, cost, from, i) <= BUDGET
    ensures var end := BatchEnd(ids, cost, BUDGET, from, i, Spent(ids, cost, from, i));
      && (end > from ==> Spent(ids, cost, from, end) <= BUDGET)
      && (from < end < |ids| ==> Spent(ids, cost, from, end) >= 197)
    decreases |ids| - i
  {
    if i < |ids| && (i == from || Spent(ids, cost, from, i) + cost(ids[i]) <= BUDGET) {
      assert Spent(ids, cost, from, i + 1) == Spent(ids, cost, from, i) + cost(ids[i]);
      assert 1 <= cost(ids[i]) <= 4;
      BatchSpends(ids, cost, from, i + 1);
    } else if i < |ids| {
      assert 1 <= cost(ids[i]) <= 4;
    }
  }

  lemma {:induction false} SpentBound(ids: seq<Id>, cost: Id -> int, from: nat, to: nat)
    requires from <= to <= |ids| && CostsInRange(cost)
    ensures to - from <= Spent(ids, cost, from, to) <= 4 * (to - from)
  {
    if to > from {
      SpentBound(ids, cost, from, to - 1);
      assert 1 <= cost(ids[to - 1]) <= 4;
    }
  }

  /** A pass over n escrows takes at most 4n/197 + 1 batches, however the costs move during it. */
  lemma {:induction false} PassLength(ids: seq<Id>, costs: nat -> (Id -> int), pos: nat, k: nat)
    requires pos < |ids| && forall j :: j >= k ==> CostsInRange(costs(j))
    ensures 197 * (|Batches(ids, costs, pos, k)| - 1) <= 4 * (|ids| - pos)
    decreases |ids| - pos
  {
    var end := BatchEnd(ids, costs(k), BUDGET, pos, pos, 0);
    BatchProgress(ids, costs(k), BUDGET, pos);
    BatchSpends(ids, costs(k), pos, pos);
    if end < |ids| {
      SpentBound(ids, costs(k), pos, end);
      PassLength(ids, costs, end, k + 1);
    }
  }

  /** A batch costs what the detector charges, so it fits one request whatever was learned. */
  lemma {:induction false} SpentIsTotalCost(ids: seq<Id>, learned: Detector.Learned, from: nat, to: nat)
    requires from <= to <= |ids|
    ensures Spent(ids, id => DetectorGuarantees.Cost(learned, id), from, to) ==
        DetectorGuarantees.TotalCost(learned, ids[from..to])
  {
    if to > from {
      SpentIsTotalCost(ids, learned, from, to - 1);
      assert ids[from..to][..to - from - 1] == ids[from..to - 1];
    }
  }

  /**
   The RPC budget of the sweep: against any RPC, the batch the sweep hands out
   costs at most one request plus at most four to re-ask stale shortcuts.
   */
  lemma SweepBatchPrice(s: Sweep, tracked: set<Id>, ledger: u32, m: Detector.Memory, rpc: Detector.Rpc,
                        isAddress: string -> bool, q: Detector.Request)
    requires q.ids == NextOf(s, SortedIds(tracked), ledger, id => DetectorGuarantees.Cost(m.learned, id), BUDGET).batch
    ensures Detector.FetchOf(m, rpc, isAddress, q).memory.calls <= m.calls + 5
  {
    var ids := SortedIds(tracked);
    var cost := id => DetectorGuarantees.Cost(m.learned, id);
    if |ids| > 0 {
      var start := Start(s, ids);
      BatchSpends(ids, cost, start, start);
      BatchProgress(ids, cost, BUDGET, start);
      SpentIsTotalCost(ids, m.learned, start, BatchEnd(ids, cost, BUDGET, start, start, 0));
    }
    DetectorGuarantees.BatchPrice(m, rpc, isAddress, q);
  }

  // ---- Runs over a growing registry ------------------------------------------------------------------

  /** One sweep opportunity at a processed ledger, whose fetch succeeds or not, or an operator's reconcile. */
  datatype Event = Visit(ledger: u32, tracked: set<Id>, cost: Id -> int, ok: bool) | Reset

  /** The sweep plus whom each of the two passes began with, since when, and everyone's last turn. */
  datatype Tracker = Tracker(
    sweep: Sweep, cur: set<Id>, prev: set<Id>, curFrom: nat, prevFrom: nat, lastTurn: map<Id, nat>)

  const UNSWEPT := Tracker(FRESH, {}, {}, 0, 0, map[])

  ghost function Advance(t: Tracker, i: nat, e: Event): Tracker {
    match e
    case Reset => t.(sweep := FRESH, cur := {}, prev := {})
    case Visit(ledger, tracked, cost, _) =>
      var ids := SortedIds(tracked);
      var next := NextOf(t.sweep, ids, ledger, cost, BUDGET);
      var turns := t.lastTurn + map id | id in next.batch :: i;
      if |ids| > 0 && Start(t.sweep, ids) == 0 then Tracker(next.sweep, tracked, t.cur, i, t.curFrom, turns)
      else t.(sweep := next.sweep, lastTurn := turns)
  }

  ghost function RunTo(events: seq<Event>, n: nat): Tracker
    requires n <= |events|
  {
    if n == 0 then UNSWEPT else Advance(RunTo(events, n - 1), n - 1, events[n - 1])
  }

  ghost function BatchAt(events: seq<Event>, i: nat): seq<Id>
    requires i < |events|
  {
    match events[i]
    case Reset => []
    case Visit(ledger, tracked, cost, _) =>
      NextOf(RunTo(events, i).sweep, SortedIds(tracked), ledger, cost, BUDGET).batch
  }

  /** Visit i asks about id. */
  ghost predicate TurnAt(events: seq<Event>, i: nat, id: Id) {
    i < |events| && events[i].Visit? && id in BatchAt(events, i)
  }

  /** And is answered. */
  ghost predicate ReadAt(events: seq<Event>, i: nat, id: Id) {
    TurnAt(events, i, id) && events[i].ok
  }

  /** The filter anchor in force when visit i is fetched. */
  ghost function SinceAt(events: seq<Event>, i: nat): u32
    requires i < |events|
  {
    RunTo(events, i + 1).sweep.prevPassStart
  }

  /** Ledgers never go back and nobody is untracked while this run lasts. */
  ghost predicate Growing(events: seq<Event>) {
    forall i, j :: 0 <= i < j < |events| && events[i].Visit? && events[j].Visit? ==>
      events[i].ledger <= events[j].ledger && events[i].tracked <= events[j].tracked
  }

  ghost function Rank(id: Id, ids: set<Id>): nat {
    |set x | x in ids && Less(x, id)|
  }

  lemma RankGrows(id: Id, small: set<Id>, big: set<Id>)
    requires small <= big
    ensures Rank(id, small) <= Rank(id, big)
  {
    Subset(set x | x in small && Less(x, id), set x | x in big && Less(x, id));
  }

  lemma Subset(a: set<Id>, b: set<Id>)
    requires a <= b
    ensures |a| <= |b|
  {
    assert b == a + (b - a);
  }

  /** An id's place in the snapshot is how many ids precede it. */
  lemma RankIsIndex(ids: set<Id>, i: nat)
    requires i < |SortedIds(ids)|
    ensures Rank(SortedIds(ids)[i], ids) == i
  {
    var s := SortedIds(ids);
    var below := set x | x in ids && Less(x, s[i]);
    forall x
      ensures x in below <==> x in s[..i]
    {
      if x in below {
        var j :| 0 <= j < |s| && s[j] == x;
        if j > i {
          LessAsymmetric(s[i], s[j]);
        } else if j == i {
          LessIrreflexive(s[i]);
        }
        assert s[..i][j] == x;
      }
    }
    assert below == Elements(s[..i]);
    SortedDistinct(s);
    DistinctSize(s[..i]);
  }

  /** The last visit's registry, which the cursor is a position of. */
  ghost function LastTracked(events: seq<Event>, n: nat): set<Id>
    requires n <= |events|
  {
    if n == 0 then {}
    else if events[n - 1].Visit? then events[n - 1].tracked
    else LastTracked(events, n - 1)
  }

  /** id had a turn at or after event `from`. */
  predicate TurnSince(t: Tracker, id: Id, from: nat) {
    id in t.lastTurn && t.lastTurn[id] >= from
  }

  ghost predicate Inv(t: Tracker, last: set<Id>) {
    && (t.sweep.pos == 0 || t.sweep.pos < |SortedIds(last)|)
    && t.cur <= last && t.prev <= last
    && (forall id :: id in t.cur && (t.sweep.pos == 0 || Rank(id, last) < t.sweep.pos) ==> TurnSince(t, id, t.curFrom))
    && (forall id :: id in t.prev ==> TurnSince(t, id, t.prevFrom))
  }

  lemma {:induction false} LastTrackedIsBelow(events: seq<Event>, n: nat, i: nat)
    requires n <= i < |events| && events[i].Visit? && Growing(events)
    ensures LastTracked(events, n) <= events[i].tracked
  {
    if n > 0 && !events[n - 1].Visit? {
      LastTrackedIsBelow(events, n - 1, i);
    }
  }

  /** A visit that goes on with a pass keeps the turns it has given and adds its batch. */
  lemma VisitKeepsInv(t: Tracker, last: set<Id>, i: nat, e: Event)
    requires Inv(t, last) && e.Visit? && last <= e.tracked && e.tracked != {}
    requires t.curFrom <= i && t.prevFrom <= i
    ensures Inv(Advance(t, i, e), e.tracked)
  {
    SnapshotSize(e.tracked);
    SnapshotSize(last);
    Subset(last, e.tracked);
    var t' := Advance(t, i, e);
    forall id | id in t'.cur && (t'.sweep.pos == 0 || Rank(id, e.tracked) < t'.sweep.pos)
      ensures TurnSince(t', id, t'.curFrom)
    {
      TurnInPass(t, last, i, e, id);
    }
  }

  /** An id of the pass the cursor has gone over had its turn: in this batch, or before it. */
  lemma TurnInPass(t: Tracker, last: set<Id>, i: nat, e: Event, id: Id)
    requires Inv(t, last) && e.Visit? && last <= e.tracked && e.tracked != {} && t.curFrom <= i
    requires var t' := Advance(t, i, e); id in t'.cur && (t'.sweep.pos == 0 || Rank(id, e.tracked) < t'.sweep.pos)
    ensures TurnSince(Advance(t, i, e), id, Advance(t, i, e).curFrom)
  {
    var ids := SortedIds(e.tracked);
    SnapshotSize(e.tracked);
    SnapshotSize(last);
    Subset(last, e.tracked);
    var start := Start(t.sweep, ids);
    var end := BatchEnd(ids, e.cost, BUDGET, start, start, 0);
    if id !in ids[start..end] {
      BeforeTheBatch(e.tracked, id, start, end);
      RankGrows(id, last, e.tracked);
    }
  }

  /** Of the ids up to the end of a batch, those not in it come before it. */
  lemma BeforeTheBatch(tracked: set<Id>, id: Id, start: nat, end: nat)
    requires id in tracked && start <= end <= |SortedIds(tracked)| && id !in SortedIds(tracked)[start..end]
    requires end == |SortedIds(tracked)| || Rank(id, tracked) < end
    ensures Rank(id, tracked) < start
  {
    var ids := SortedIds(tracked);
    var k :| 0 <= k < |ids| && ids[k] == id;
    RankIsIndex(tracked, k);
  }

  lemma {:induction false} InvAlways(events: seq<Event>, n: nat)
    requires n <= |events| && Growing(events)
    ensures var t := RunTo(events, n); Inv(t, LastTracked(events, n)) && t.curFrom <= n && t.prevFrom <= n
  {
    if n > 0 {
      InvAlways(events, n - 1);
      var e := events[n - 1];
      if e.Visit? {
        LastTrackedIsBelow(events, n - 1, n - 1);
        SnapshotSize(e.tracked);
        if e.tracked != {} {
          VisitKeepsInv(RunTo(events, n - 1), LastTracked(events, n - 1), n - 1, e);
        } else {
          assert LastTracked(events, n - 1) == e.tracked;
        }
      }
    }
  }

  lemma TurnStep(events: seq<Event>, n: nat, id: Id)
    requires 0 < n <= |events|
    ensures var was, t := RunTo(events, n - 1), RunTo(events, n);
      && (id in t.lastTurn <==> id in was.lastTurn || id in BatchAt(events, n - 1))
      && (id in t.lastTurn ==> t.lastTurn[id] == if id in BatchAt(events, n - 1) then n - 1 else was.lastTurn[id])
  {
  }

  /** lastTurn is what it says. */
  lemma {:induction false} LastTurnIsATurn(events: seq<Event>, n: nat, id: Id)
    requires n <= |events| && id in RunTo(events, n).lastTurn
    ensures RunTo(events, n).lastTurn[id] < n && TurnAt(events, RunTo(events, n).lastTurn[id], id)
  {
    assert n > 0;
    var was, turns, batch := RunTo(events, n - 1).lastTurn, RunTo(events, n).lastTurn, BatchAt(events, n - 1);
    TurnStep(events, n, id);
    if id in batch {
      assert events[n - 1].Visit?;
    } else {
      assert id in was && turns[id] == was[id];
      LastTurnIsATurn(events, n - 1, id);
    }
  }

  /** The anchors are the ledgers of the visits the two passes began with. */
  lemma {:induction false} AnchorsAreVisits(events: seq<Event>, n: nat)
    requires n <= |events|
    ensures var t := RunTo(events, n);
      && (t.sweep.passStart != 0 ==>
           t.curFrom < n && events[t.curFrom].Visit? && events[t.curFrom].ledger == t.sweep.passStart)
      && (t.sweep.prevPassStart != 0 ==>
           t.prevFrom < n && events[t.prevFrom].Visit? && events[t.prevFrom].ledger == t.sweep.prevPassStart)
  {
    if n > 0 {
      AnchorsAreVisits(events, n - 1);
    }
  }

  /**
   A growing registry never costs a pass anyone it began with: when a visit
   completes a pass, every escrow tracked at that pass's start had its turn in it.
   */
  lemma CompletedPassReachesEveryone(events: seq<Event>, n: nat, id: Id)
    requires Growing(events) && n <= |events| && RunTo(events, n).sweep.pos == 0 && id in RunTo(events, n).cur
    ensures exists j :: RunTo(events, n).curFrom <= j < n && TurnAt(events, j, id)
  {
    InvAlways(events, n);
    LastTurnIsATurn(events, n, id);
  }

  // ---- The changed-since filter ------------------------------------------------------------------------

  lemma AnchorBeforeTurn(events: seq<Event>, i: nat, j: nat, id: Id)
    requires Growing(events) && i < |events| && RunTo(events, i + 1).prevFrom <= j < i && TurnAt(events, j, id)
    ensures SinceAt(events, i) == 0 || SinceAt(events, i) <= events[j].ledger
  {
    var t := RunTo(events, i + 1);
    AnchorsAreVisits(events, i + 1);
    if t.sweep.prevPassStart != 0 {
      LedgersInOrder(events, t.prevFrom, j);
    }
  }

  lemma LedgersInOrder(events: seq<Event>, i: nat, j: nat)
    requires Growing(events) && i <= j < |events| && events[i].Visit? && events[j].Visit?
    ensures events[i].ledger <= events[j].ledger
  {
  }

  /** Whoever the previous pass began with had a turn since it began, before this visit. */
  lemma PreviousPassReached(events: seq<Event>, i: nat, id: Id)
    requires Growing(events) && i < |events| && events[i].Visit? && id in RunTo(events, i + 1).prev
    ensures exists j :: RunTo(events, i + 1).prevFrom <= j < i && TurnAt(events, j, id)
  {
    var before := RunTo(events, i);
    InvAlways(events, i);
    var ids := SortedIds(events[i].tracked);
    if |ids| > 0 && Start(before.sweep, ids) == 0 {
      if before.sweep.pos != 0 {
        LastTrackedIsBelow(events, i, i);
        SnapshotSize(events[i].tracked);
        SnapshotSize(LastTracked(events, i));
        Subset(LastTracked(events, i), events[i].tracked);
      }
    }
    assert TurnSince(before, id, RunTo(events, i + 1).prevFrom);
    LastTurnIsATurn(events, i, id);
  }

  /** The filter lets an entry last modified at this ledger through. */
  predicate Passes(since: u32, modified: u32) {
    since == 0 || since <= modified
  }

  /** Of what happened after the last look, at tip, the filter hides nothing. */
  ghost predicate HidesNothing(since: u32, tip: u32) {
    forall modified: u32 :: tip < modified ==> Passes(since, modified)
  }

  /** The anchor in force at visit i, if there is one, is the ledger of the visit the previous pass began with. */
  ghost predicate AnchorIsAVisit(events: seq<Event>, i: nat)
    requires i < |events|
  {
    var from := RunTo(events, i + 1).prevFrom;
    SinceAt(events, i) != 0 ==> from <= i && events[from].Visit? && events[from].ledger == SinceAt(events, i)
  }

  lemma SinceIsAnchored(events: seq<Event>, i: nat)
    requires i < |events|
    ensures AnchorIsAVisit(events, i)
  {
    AnchorsAreVisits(events, i + 1);
  }

  /** j is the last visit before i that read id. */
  ghost predicate LastReadBefore(events: seq<Event>, i: nat, id: Id, j: nat) {
    j < i && ReadAt(events, j, id) && forall k :: j < k < i ==> !ReadAt(events, k, id)
  }

  /**
   Filter completeness, exactly. The filter is meant to drop only what an earlier read
   has seen. Visit j was the last to read id before visit i, and saw the chain as of
   `tip`, its own ledger at least. Nothing after tip is hidden from visit i exactly
   when the filter is off, or the previous pass began no later than at the ledger
   after tip; which is always so when visit j lies in the current or the previous pass.
   */
  lemma NothingHiddenIff(events: seq<Event>, i: nat, id: Id, j: nat, tip: u32)
    requires Growing(events) && i < |events| && events[i].Visit? && LastReadBefore(events, i, id, j)
    requires events[j].ledger <= tip
    ensures AnchorIsAVisit(events, i)
    ensures HidesNothing(SinceAt(events, i), tip) <==>
      SinceAt(events, i) == 0 || events[RunTo(events, i + 1).prevFrom].ledger <= tip + 1
    ensures j >= RunTo(events, i + 1).prevFrom ==> HidesNothing(SinceAt(events, i), tip)
  {
    SinceIsAnchored(events, i);
    if j >= RunTo(events, i + 1).prevFrom {
      AnchorBeforeTurn(events, i, j, id);
    }
    HidesNothingIff(SinceAt(events, i), tip);
  }

  lemma HidesNothingIff(since: u32, tip: u32)
    ensures HidesNothing(since, tip) <==> since == 0 || since <= tip + 1
  {
    if tip + 1 < U32 && HidesNothing(since, tip) {
      assert Passes(since, tip + 1);
    }
  }

  /**
   What a caller can rely on: escrow id, tracked since before the previous pass began
   and answered for at its turns in it, is not hidden from visit i if it was modified
   after what those reads could see.
   */
  lemma FirstReadSeesTheChange(events: seq<Event>, i: nat, id: Id, tips: nat -> u32, modified: u32)
    requires Growing(events) && i < |events| && events[i].Visit? && id in RunTo(events, i + 1).prev
    requires forall j :: RunTo(events, i + 1).prevFrom <= j < i && TurnAt(events, j, id) ==>
      ReadAt(events, j, id) && events[j].ledger <= tips(j) < modified
    ensures Passes(SinceAt(events, i), modified)
  {
    PreviousPassReached(events, i, id);
    var j :| RunTo(events, i + 1).prevFrom <= j < i && TurnAt(events, j, id);
    AnchorBeforeTurn(events, i, j, id);
  }

  /** The fetch of visit i, over an honest RPC. */
  ghost predicate Fetching(events: seq<Event>, i: nat, m: Detector.Memory, rpc: Detector.Rpc, isAddress: string -> bool,
                           q: Detector.Request, chain: DetectorTheorems.Chain) {
    && i < |events| && events[i].Visit?
    && q.ids == BatchAt(events, i) && q.since == SinceAt(events, i) && q.tracked == events[i].tracked
    && DetectorTheorems.Honest(rpc, chain) && DetectorTheorems.LearnedOk(m.learned, isAddress)
  }

  /** The fetch reports an update of id. */
  ghost predicate Reports(m: Detector.Memory, rpc: Detector.Rpc, isAddress: string -> bool, q: Detector.Request,
                          id: Id) {
    var f := Detector.FetchOf(m, rpc, isAddress, q);
    f.changes.Some? && id in DetectorGuarantees.UpdatedIn(f.changes.value)
  }

  ghost predicate Succeeds(m: Detector.Memory, rpc: Detector.Rpc, isAddress: string -> bool, q: Detector.Request) {
    Detector.FetchOf(m, rpc, isAddress, q).changes.Some?
  }

  /** There is an entry, and whichever a fetch may settle on was last modified at this ledger. */
  ghost predicate ModifiedAt(m: Detector.Memory, q: Detector.Request, chain: DetectorTheorems.Chain, id: Id,
                             modified: u32) {
    && DetectorTheorems.OnChain(chain, id)
    && forall k :: DetectorTheorems.Resolves(m.learned, q.tracked, chain, id, k) ==>
         k in chain && chain[k].lastModified == modified
  }

  /** A visit that succeeds publishes the current entry of an escrow it asks about exactly when the filter passes it. */
  lemma PublishedIffPassed(events: seq<Event>, i: nat, id: Id, modified: u32, m: Detector.Memory, rpc: Detector.Rpc,
                           isAddress: string -> bool, q: Detector.Request, chain: DetectorTheorems.Chain)
    requires Fetching(events, i, m, rpc, isAddress, q, chain) && TurnAt(events, i, id)
    requires Facts.Known(q.tracked, id) && isAddress(id) && ModifiedAt(m, q, chain, id, modified)
    ensures Succeeds(m, rpc, isAddress, q) ==>
      (Reports(m, rpc, isAddress, q, id) <==> Passes(SinceAt(events, i), modified))
    ensures Succeeds(m, rpc, isAddress, q) ==>
      id !in DetectorGuarantees.RemovedIn(Detector.FetchOf(m, rpc, isAddress, q).changes.value)
  {
    BatchesAreDistinct(events, i);
    DetectorGuarantees.UpdatedExactlyWhenChanged(m, rpc, isAddress, q, chain, id);
    DetectorGuarantees.RemovedExactlyWhenGone(m, rpc, isAddress, q, chain, id);
  }

  lemma BatchesAreDistinct(events: seq<Event>, i: nat)
    requires i < |events|
    ensures Distinct(BatchAt(events, i))
  {
    if events[i].Visit? {
      SortedDistinct(SortedIds(events[i].tracked));
    }
  }

  /**
   Sweep completeness end to end: the first visit that reads a modification after the
   previous pass's reads publishes it, key cache, changed-since filter and removal
   guard notwithstanding.
   */
  lemma SweepPublishesEveryModification(events: seq<Event>, i: nat, id: Id, tips: nat -> u32, modified: u32,
                                        m: Detector.Memory, rpc: Detector.Rpc, isAddress: string -> bool,
                                        q: Detector.Request, chain: DetectorTheorems.Chain)
    requires Growing(events) && TurnAt(events, i, id) && id in RunTo(events, i + 1).prev
    requires forall j :: RunTo(events, i + 1).prevFrom <= j < i && TurnAt(events, j, id) ==>
      ReadAt(events, j, id) && events[j].ledger <= tips(j) < modified
    requires Fetching(events, i, m, rpc, isAddress, q, chain)
    requires Facts.Known(q.tracked, id) && isAddress(id) && ModifiedAt(m, q, chain, id, modified)
    ensures Succeeds(m, rpc, isAddress, q) ==> Reports(m, rpc, isAddress, q, id)
  {
    FirstReadSeesTheChange(events, i, id, tips, modified);
    PublishedIffPassed(events, i, id, modified, m, rpc, isAddress, q, chain);
  }

  /** Three visits over a lone escrow, the second of which fails to fetch. */
  function FailedVisitRun(id: Id, cost: Id -> int, l1: u32, l2: u32, l3: u32): seq<Event> {
    [Visit(l1, {id}, cost, true), Visit(l2, {id}, cost, false), Visit(l3, {id}, cost, true)]
  }

  lemma FailedVisitAnchors(id: Id, cost: Id -> int, l1: u32, l2: u32, l3: u32)
    ensures var events := FailedVisitRun(id, cost, l1, l2, l3);
      SinceAt(events, 2) == l2 && BatchAt(events, 2) == SortedIds({id}) && LastReadBefore(events, 2, id, 0)
  {
    var events := FailedVisitRun(id, cost, l1, l2, l3);
    SnapshotSize({id});
    var ids := SortedIds({id});
    BatchProgress(ids, cost, BUDGET, 0);
    assert ids[0..1] == ids;
    var t1 := Advance(UNSWEPT, 0, events[0]);
    assert RunTo(events, 1) == t1 && t1.sweep == Sweep(0, l1, 0);
    var t2 := Advance(t1, 1, events[1]);
    assert RunTo(events, 2) == t2 && t2.sweep == Sweep(0, l2, l1);
    assert RunTo(events, 3) == Advance(t2, 2, events[2]);
    assert BatchAt(events, 0) == ids;
  }

  /**
   A failed sweep batch does lose a modification: the pass after it filters from where
   the failed pass began, so whatever happened between the last read and that ledger is
   dropped by a visit that reads it for the first time and whose fetch succeeds.
   */
  lemma FailedVisitHidesTheChange(id: Id, cost: Id -> int, l1: u32, tip: u32, modified: u32, l2: u32, l3: u32,
                                  m: Detector.Memory, rpc: Detector.Rpc, isAddress: string -> bool,
                                  q: Detector.Request, chain: DetectorTheorems.Chain)
    requires l1 <= tip < modified < l2 <= l3 && id != "" && isAddress(id)
    requires var events := FailedVisitRun(id, cost, l1, l2, l3);
      Fetching(events, 2, m, rpc, isAddress, q, chain) && ModifiedAt(m, q, chain, id, modified)
    ensures var events := FailedVisitRun(id, cost, l1, l2, l3);
      LastReadBefore(events, 2, id, 0) && TurnAt(events, 2, id) && !HidesNothing(SinceAt(events, 2), tip)
    ensures Succeeds(m, rpc, isAddress, q) ==>
      && !Reports(m, rpc, isAddress, q, id)
      && id !in DetectorGuarantees.RemovedIn(Detector.FetchOf(m, rpc, isAddress, q).changes.value)
  {
    var events := FailedVisitRun(id, cost, l1, l2, l3);
    FailedVisitAnchors(id, cost, l1, l2, l3);
    assert id in SortedIds({id});
    assert !Passes(SinceAt(events, 2), modified);
    PublishedIffPassed(events, 2, id, modified, m, rpc, isAddress, q, chain);
  }

  /**
   And it happens outright: over a node that never fails and always tells the truth, to
   a detector that has learned nothing, the modification is there to be reported, and
   the third visit, asking about this very escrow, says nothing about it.
   */
  lemma FailedVisitLosesTheChange(id: Id, cost: Id -> int, l1: u32, tip: u32, modified: u32, l2: u32, l3: u32,
                                  raw: string, isAddress: string -> bool, closedAt: int)
    requires l1 <= tip < modified < l2 <= l3 && id != "" && isAddress(id)
    ensures var events := FailedVisitRun(id, cost, l1, l2, l3);
            var key, entry := Detector.Candidate(id, Detector.VecPersistent), DetectorTheorems.Stored(raw, modified);
            var node := Nodes.Node(map[key := entry]);
            var q := Detector.Request({id}, BatchAt(events, 2), l3, closedAt, SinceAt(events, 2));
            var f := Detector.FetchOf(Nodes.NEW, node, isAddress, q);
      && LastReadBefore(events, 2, id, 0) && id in q.ids
      && f.changes.Some? && !Reports(Nodes.NEW, node, isAddress, q, id)
      && id !in DetectorGuarantees.RemovedIn(f.changes.value)
      && Reports(Nodes.NEW, node, isAddress, q.(since := 0), id)
  {
    var events := FailedVisitRun(id, cost, l1, l2, l3);
    var key := Detector.Candidate(id, Detector.VecPersistent);
    var chain: DetectorTheorems.Chain := map[key := DetectorTheorems.Stored(raw, modified)];
    var q := Detector.Request({id}, BatchAt(events, 2), l3, closedAt, SinceAt(events, 2));
    Nodes.NodeIsHonest(chain);
    DetectorTheorems.ReliableFetch(Nodes.NEW, Nodes.Node(chain), isAddress, q);
    DetectorTheorems.ReliableFetch(Nodes.NEW, Nodes.Node(chain), isAddress, q.(since := 0));
    assert key in chain;
    FailedVisitHidesTheChange(id, cost, l1, tip, modified, l2, l3, Nodes.NEW, Nodes.Node(chain), isAddress, q, chain);
    BatchesAreDistinct(events, 2);
    DetectorGuarantees.UpdatedExactlyWhenChanged(Nodes.NEW, Nodes.Node(chain), isAddress, q.(since := 0), chain, id);
  }

  // ---- The pass after a boot or a reconcile --------------------------------------------------------------

  /** Visit j left the pass unfinished, if it read anything at all. */
  ghost predicate Unfinished(events: seq<Event>, j: nat)
    requires j < |events|
  {
    events[j].Visit? && (BatchAt(events, j) != [] ==> RunTo(events, j + 1).sweep.pos != 0)
  }

  /** A process begins its sweep, and a reconcile begins it anew, at the top with the filter off. */
  lemma FreshStarts(events: seq<Event>, r: nat)
    requires r <= |events| && (r == 0 || events[r - 1] == Reset)
    ensures RunTo(events, r).sweep == FRESH
  {
  }

  /** The filter is off, and at the top of a pass nothing has been read yet. */
  predicate Disarmed(s: Sweep) {
    s.prevPassStart == 0 && (s.pos == 0 ==> s == FRESH)
  }

  lemma DisarmedStep(events: seq<Event>, i: nat)
    requires Growing(events) && i < |events| && Unfinished(events, i) && Disarmed(RunTo(events, i).sweep)
    ensures Disarmed(RunTo(events, i + 1).sweep)
  {
    PassContinues(events, i);
  }

  lemma {:induction false} FreshPass(events: seq<Event>, r: nat, n: nat)
    requires Growing(events) && r <= n <= |events| && RunTo(events, r).sweep == FRESH
    requires forall j :: r <= j < n ==> Unfinished(events, j)
    ensures Disarmed(RunTo(events, n).sweep)
    decreases n
  {
    if n > r {
      FreshPass(events, r, n - 1);
      DisarmedStep(events, n - 1);
    }
  }

  /** Within a pass the anchors stand still; at the top of one they move. */
  lemma PassContinues(events: seq<Event>, i: nat)
    requires Growing(events) && i < |events| && events[i].Visit?
    ensures var s, t := RunTo(events, i).sweep, RunTo(events, i + 1).sweep;
      && (BatchAt(events, i) == [] ==> t == s)
      && (s.pos != 0 ==> t.passStart == s.passStart && t.prevPassStart == s.prevPassStart)
      && (s.pos == 0 && BatchAt(events, i) != [] ==> t.passStart == events[i].ledger && t.prevPassStart == s.passStart)
    ensures RunTo(events, i).sweep.pos != 0 ==>
      RunTo(events, i + 1).cur == RunTo(events, i).cur && RunTo(events, i + 1).curFrom == RunTo(events, i).curFrom
    ensures RunTo(events, i).sweep.pos == 0 && events[i].tracked != {} ==>
      RunTo(events, i + 1).cur == events[i].tracked && RunTo(events, i + 1).curFrom == i && BatchAt(events, i) != []
  {
    var ids, s := SortedIds(events[i].tracked), RunTo(events, i).sweep;
    InvAlways(events, i);
    LastTrackedIsBelow(events, i, i);
    SnapshotSize(events[i].tracked);
    SnapshotSize(LastTracked(events, i));
    Subset(LastTracked(events, i), events[i].tracked);
    if |ids| > 0 {
      BatchProgress(ids, events[i].cost, BUDGET, Start(s, ids));
    }
  }

  /** From a fresh start up to the visit that completes the pass every visit is fetched unfiltered. */
  lemma ResetDisarmsTheFilter(events: seq<Event>, r: nat, i: nat)
    requires Growing(events) && r <= i < |events| && RunTo(events, r).sweep == FRESH && events[i].Visit?
    requires forall j :: r <= j < i ==> Unfinished(events, j)
    ensures SinceAt(events, i) == 0
  {
    FreshPass(events, r, i);
    PassContinues(events, i);
  }

  /** While the pass that began at visit r lasts, it is the current one. */
  lemma {:induction false} PassLasts(events: seq<Event>, r: nat, n: nat)
    requires Growing(events) && r < n <= |events| && RunTo(events, r).sweep.pos == 0
    requires events[r].Visit? && events[r].tracked != {}
    requires forall j :: r <= j < n - 1 ==> Unfinished(events, j)
    requires events[n - 1].Visit?
    ensures RunTo(events, n).cur == events[r].tracked && RunTo(events, n).curFrom == r
    decreases n
  {
    PassContinues(events, n - 1);
    if n - 1 > r {
      assert Unfinished(events, n - 2);
      PassLasts(events, r, n - 1);
      StillInPass(events, r, n - 1);
    }
  }

  lemma StillInPass(events: seq<Event>, r: nat, i: nat)
    requires Growing(events) && r < i <= |events| && events[r].Visit? && events[r].tracked != {}
    requires Unfinished(events, i - 1)
    ensures RunTo(events, i).sweep.pos != 0
  {
    LedgersInOrder(events, r, i - 1);
    assert r == i - 1 || events[r].tracked <= events[i - 1].tracked;
    SnapshotSize(events[i - 1].tracked);
    var ids := SortedIds(events[i - 1].tracked);
    BatchProgress(ids, events[i - 1].cost, BUDGET, Start(RunTo(events, i - 1).sweep, ids));
  }

  /** The pass of visits r up to n, which begins at the top and which visit n - 1 completes. */
  ghost predicate WholePass(events: seq<Event>, r: nat, n: nat) {
    && r < n <= |events| && events[r].Visit? && events[r].tracked != {} && events[n - 1].Visit?
    && RunTo(events, n).sweep.pos == 0 && forall j :: r <= j < n - 1 ==> Unfinished(events, j)
  }

  /** The first pass after a boot or a reset asks about everyone tracked at its start, unfiltered. */
  lemma FreshPassReachesEveryone(events: seq<Event>, r: nat, n: nat, id: Id) returns (j: nat)
    requires Growing(events) && WholePass(events, r, n) && RunTo(events, r).sweep == FRESH
    requires id in events[r].tracked
    ensures r <= j < n && TurnAt(events, j, id) && SinceAt(events, j) == 0
  {
    PassLasts(events, r, n);
    CompletedPassReachesEveryone(events, n, id);
    j :| r <= j < n && TurnAt(events, j, id);
    ResetDisarmsTheFilter(events, r, j);
  }

  /**
   The first pass after a boot or a reset reports the current entry of every escrow
   tracked at its start that has one, provided its visits are answered.
   */
  lemma FreshPassReportsEveryone(events: seq<Event>, r: nat, n: nat, id: Id, m: nat -> Detector.Memory,
                                 rpc: nat -> Detector.Rpc, isAddress: string -> bool, q: nat -> Detector.Request,
                                 chain: nat -> DetectorTheorems.Chain) returns (j: nat)
    requires Growing(events) && WholePass(events, r, n) && RunTo(events, r).sweep == FRESH
    requires Facts.Known(events[r].tracked, id) && isAddress(id)
    requires forall k :: r <= k < n ==>
      Fetching(events, k, m(k), rpc(k), isAddress, q(k), chain(k)) && Succeeds(m(k), rpc(k), isAddress, q(k))
    ensures r <= j < n && TurnAt(events, j, id)
    ensures DetectorTheorems.OnChain(chain(j), id) ==> Reports(m(j), rpc(j), isAddress, q(j), id)
  {
    j := FreshPassReachesEveryone(events, r, n, id);
    assert Fetching(events, j, m(j), rpc(j), isAddress, q(j), chain(j));
    assert j == r || events[r].tracked <= events[j].tracked;
    BatchesAreDistinct(events, j);
    DetectorGuarantees.UpdatedExactlyWhenChanged(m(j), rpc(j), isAddress, q(j), chain(j), id);
  }

  // ---- Passes over a fixed registry, visit by visit ------------------------------------------------------

  /** Every visit from r to the end finds the same registry. */
  predicate Fixed(events: seq<Event>, r: nat, tracked: set<Id>) {
    forall i :: r <= i < |events| ==> events[i].Visit? && events[i].tracked == tracked
  }

  function CostsOf(events: seq<Event>): nat -> (Id -> int) {
    (i: nat) => if i < |events| && events[i].Visit? then events[i].cost else (id => 1)
  }

  /** The visits of a pass, as many as there are, hand out its batches one by one and end at the top. */
  ghost predicate Follow(events: seq<Event>, r: nat, batches: seq<seq<Id>>) {
    && r + |batches| <= |events| && RunTo(events, r + |batches|).sweep.pos == 0
    && forall k :: 0 <= k < |batches| ==> BatchAt(events, r + k) == batches[k]
  }

  lemma {:induction false} VisitsFollowBatches(events: seq<Event>, r: nat, tracked: set<Id>, ids: seq<Id>, pos: nat,
                                               costs: nat -> (Id -> int), batches: seq<seq<Id>>)
    requires Fixed(events, r, tracked) && ids == SortedIds(tracked) && pos < |ids| && costs == CostsOf(events)
    requires batches == Batches(ids, costs, pos, r) && r + |batches| <= |events| && RunTo(events, r).sweep.pos == pos
    ensures Follow(events, r, batches)
    decreases |ids| - pos
  {
    BatchesUnfold(ids, costs, pos, r);
    var end := BatchEnd(ids, costs(r), BUDGET, pos, pos, 0);
    OneVisit(events, r, tracked, pos);
    if end < |ids| {
      var rest := Batches(ids, costs, end, r + 1);
      VisitsFollowBatches(events, r + 1, tracked, ids, end, costs, rest);
      FollowFrom(events, r, ids[pos..end], rest);
    } else {
      FollowLast(events, r, ids[pos..end]);
    }
  }

  lemma FollowLast(events: seq<Event>, r: nat, batch: seq<Id>)
    requires r < |events| && BatchAt(events, r) == batch && RunTo(events, r + 1).sweep.pos == 0
    ensures Follow(events, r, [batch])
  {
  }

  lemma FollowFrom(events: seq<Event>, r: nat, first: seq<Id>, rest: seq<seq<Id>>)
    requires r < |events| && BatchAt(events, r) == first && Follow(events, r + 1, rest)
    ensures Follow(events, r, [first] + rest)
  {
    forall k | 0 <= k < |rest| + 1
      ensures BatchAt(events, r + k) == ([first] + rest)[k]
    {
      if k > 0 {
        assert BatchAt(events, r + 1 + (k - 1)) == rest[k - 1];
      }
    }
  }

  lemma BatchesUnfold(ids: seq<Id>, costs: nat -> (Id -> int), pos: nat, k: nat)
    requires pos < |ids|
    ensures BatchEnd(ids, costs(k), BUDGET, pos, pos, 0) > pos
    ensures var end := BatchEnd(ids, costs(k), BUDGET, pos, pos, 0);
      Batches(ids, costs, pos, k) ==
        if end >= |ids| then [ids[pos..end]] else [ids[pos..end]] + Batches(ids, costs, end, k + 1)
  {
    BatchProgress(ids, costs(k), BUDGET, pos);
  }

  lemma OneVisit(events: seq<Event>, r: nat, tracked: set<Id>, pos: nat)
    requires Fixed(events, r, tracked) && pos < |SortedIds(tracked)| && r < |events|
    requires RunTo(events, r).sweep.pos == pos
    ensures var ids := SortedIds(tracked); var end := BatchEnd(ids, CostsOf(events)(r), BUDGET, pos, pos, 0);
      BatchAt(events, r) == ids[pos..end] && RunTo(events, r + 1).sweep.pos == if end >= |ids| then 0 else end
  {
  }

  /** The batches of visits r up to r + n. */
  ghost function BatchesFrom(events: seq<Event>, r: nat, n: nat): (b: seq<seq<Id>>)
    requires r + n <= |events|
    ensures |b| == n && forall k :: 0 <= k < n ==> b[k] == BatchAt(events, r + k)
  {
    seq(n, k requires 0 <= k < n => BatchAt(events, r + k))
  }

  lemma CostsStayInRange(events: seq<Event>, r: nat)
    requires forall i :: r <= i < |events| ==> events[i].Visit? && CostsInRange(events[i].cost)
    ensures forall j: nat :: j >= r ==> CostsInRange(CostsOf(events)(j))
  {
    forall j: nat | j >= r
      ensures CostsInRange(CostsOf(events)(j))
    {
      if j < |events| {
        assert CostsInRange(events[j].cost);
      }
    }
  }

  lemma BatchesOfVisits(events: seq<Event>, r: nat, tracked: set<Id>, ids: seq<Id>, costs: nat -> (Id -> int),
                        batches: seq<seq<Id>>)
    requires Fixed(events, r, tracked) && ids == SortedIds(tracked) && |ids| > 0 && costs == CostsOf(events)
    requires batches == Batches(ids, costs, 0, r) && r + |batches| <= |events| && RunTo(events, r).sweep.pos == 0
    ensures BatchesFrom(events, r, |batches|) == batches && RunTo(events, r + |batches|).sweep.pos == 0
  {
    VisitsFollowBatches(events, r, tracked, ids, 0, costs, batches);
  }

  /** The batches of a pass, whatever the costs: all of the ids, and not too many. */
  lemma WholePassBatches(ids: seq<Id>, costs: nat -> (Id -> int), r: nat, batches: seq<seq<Id>>)
    requires |ids| > 0 && batches == Batches(ids, costs, 0, r)
    requires forall j: nat :: j >= r ==> CostsInRange(costs(j))
    ensures Flat(batches) == ids && 0 < |batches| <= 4 * |ids| / 197 + 1
  {
    PassLength(ids, costs, 0, r);
    PassIsTheSnapshot(ids, costs, 0, r);
    assert ids[0..] == ids;
  }

  lemma PassOverSnapshot(events: seq<Event>, r: nat, tracked: set<Id>, ids: seq<Id>, costs: nat -> (Id -> int),
                         batches: seq<seq<Id>>)
    requires Fixed(events, r, tracked) && ids == SortedIds(tracked) && |ids| > 0 && costs == CostsOf(events)
    requires forall j: nat :: j >= r ==> CostsInRange(costs(j))
    requires batches == Batches(ids, costs, 0, r) && r + 4 * |ids| / 197 + 1 <= |events|
    requires RunTo(events, r).sweep.pos == 0
    ensures 0 < |batches| <= 4 * |ids| / 197 + 1 && r + |batches| <= |events|
    ensures Flat(BatchesFrom(events, r, |batches|)) == ids && RunTo(events, r + |batches|).sweep.pos == 0
  {
    WholePassBatches(ids, costs, r, batches);
    BatchesOfVisits(events, r, tracked, ids, costs, batches);
  }

  lemma FixedSnapshotPass(events: seq<Event>, r: nat, tracked: set<Id>, ids: seq<Id>, costs: nat -> (Id -> int))
      returns (n: nat)
    requires Fixed(events, r, tracked) && ids == SortedIds(tracked) && |ids| > 0 && costs == CostsOf(events)
    requires r < |events| && RunTo(events, r).sweep.pos == 0
    requires forall j: nat :: j >= r ==> CostsInRange(costs(j))
    requires r + 4 * |ids| / 197 + 1 <= |events|
    ensures 0 < n <= 4 * |ids| / 197 + 1 && r + n <= |events| && Flat(BatchesFrom(events, r, n)) == ids
    ensures RunTo(events, r + n).sweep.pos == 0
  {
    var batches := Batches(ids, costs, 0, r);
    PassOverSnapshot(events, r, tracked, ids, costs, batches);
    n := |batches|;
  }

  /**
   On a fixed registry of n escrows a pass that begins at visit r takes at most
   4n/197 + 1 visits; their batches, laid end to end, are the sorted registry, and the
   next pass begins at the top.
   */
  lemma FixedRegistryPass(events: seq<Event>, r: nat, tracked: set<Id>) returns (n: nat)
    requires Fixed(events, r, tracked) && tracked != {} && r < |events| && RunTo(events, r).sweep.pos == 0
    requires forall i :: r <= i < |events| ==> CostsInRange(events[i].cost)
    requires |events| - r >= 4 * |tracked| / 197 + 1
    ensures 0 < n <= 4 * |tracked| / 197 + 1 && r + n <= |events|
    ensures Flat(BatchesFrom(events, r, n)) == SortedIds(tracked)
    ensures RunTo(events, r + n).sweep.pos == 0
  {
    SnapshotSize(tracked);
    CostsStayInRange(events, r);
    n := FixedSnapshotPass(events, r, tracked, SortedIds(tracked), CostsOf(events));
  }
}
