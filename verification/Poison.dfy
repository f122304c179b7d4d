/**
 Poison ledgers. Validation refuses some of the facts detection forwards, and a refusal
 is fatal: the process ends before the cursor moves, and the next one meets the same
 ledger again.
 */
module Poison {
  import opened Base
  import opened Ids
  import opened Registry
  import opened Facts
  import opened Envelopes
  import opened Machine
  import opened NoLoss
  import opened Replay
  import CrashReplay
  import Identity
  import Notices
  import Witness

  /** In any run: what the last processing of a ledger up to the cursor and outside the gaps derived is valid. */
  lemma PassedFactsAreValid(e: Env, s: Sys, trace: seq<Action>, n: u32, f: Fact)
    requires Initial(s)
    requires var t := Exec(e, s, trace);
      && n in t.hist.derived && f in t.hist.derived[n].facts && n <= CursorOf(t.disk)
      && !Skipped(GapsOf(t.disk), n) && (t.hist.base.Some? ==> t.hist.base.value <= n)
    ensures Validate(FromEscrowEvent(e.name, f))
  {
    NoSilentLoss(e, s, trace, n);
    Notices.AlwaysValid(e, s, trace);
    var t := Exec(e, s, trace);
    assert Accounted(e, t.hist, GapsOf(t.disk), n);
    assert Published(e, t.hist.log, f);
  }

  /** So the cursor stays below a ledger that is in no gap and whose last processing derived an unpublishable fact. */
  lemma CursorStopsAtPoison(e: Env, s: Sys, trace: seq<Action>, n: u32, f: Fact)
    requires Initial(s)
    requires var t := Exec(e, s, trace);
      && n in t.hist.derived && f in t.hist.derived[n].facts && !Validate(FromEscrowEvent(e.name, f))
      && !Skipped(GapsOf(t.disk), n) && (t.hist.base.Some? ==> t.hist.base.value <= n)
    ensures CursorOf(Exec(e, s, trace).disk) < n
  {
    if CursorOf(Exec(e, s, trace).disk) >= n {
      PassedFactsAreValid(e, s, trace, n, f);
    }
  }

  /** An event's own first symbol decides: whoever detects it, and as whatever. */
  lemma VerdictOfEvent(name: string, tx: Tx, n: u32, closedAt: int, tracked: set<Id>, k: nat, f: Fact)
    requires Makes(tx, n, closedAt, tracked, k, f)
    ensures var ev := Flatten(tx.ops).value[k];
      Validate(FromEscrowEvent(name, f)) <==>
        && name != "" && n != 0 && tx.hash != "" && ev.raw != ""
        && FirstSymbol(ev).Some? && FirstSymbol(ev).value != ""
  {
  }

  /** Two detections of one event are both publishable or neither is. */
  lemma SameEventSameVerdict(e: Env, n: u32, a: set<Id>, f: Fact, b: set<Id>, g: Fact)
    requires Identity.WellHashed(e) && Identity.FactOf(e, n, a, f) && Identity.FactOf(e, n, b, g) && IdOf(f) == IdOf(g)
    ensures Validate(FromEscrowEvent(e.name, f)) <==> Validate(FromEscrowEvent(e.name, g))
  {
    var txs, closedAt := e.serve(0, n).txs, e.serve(0, n).closedAt;
    DetectedMakes(txs, n, closedAt, a, f);
    DetectedMakes(txs, n, closedAt, b, g);
    var x: Tx, k: nat :| x in txs && Makes(x, n, closedAt, a, k, f);
    var y: Tx, l: nat :| y in txs && Makes(y, n, closedAt, b, l, g);
    OneTransaction(e, n, x, y);
    SamePosition(e, n, x, k, l);
    VerdictOfEvent(e.name, x, n, closedAt, a, k, f);
    VerdictOfEvent(e.name, y, n, closedAt, b, l, g);
  }

  lemma OneTransaction(e: Env, n: u32, x: Tx, y: Tx)
    requires Identity.WellHashed(e) && x in e.serve(0, n).txs && y in e.serve(0, n).txs && x.hash == y.hash
    ensures x == y
  {
    assert HashesDistinct(e.serve(0, n).txs);
  }

  lemma SamePosition(e: Env, n: u32, x: Tx, k: nat, l: nat)
    requires Identity.WellHashed(e) && x in e.serve(0, n).txs && Flatten(x.ops).Some?
    requires k < |Flatten(x.ops).value| && l < |Flatten(x.ops).value| && Wrap(k) == Wrap(l)
    ensures k == l
  {
    assert CountersFit(e.serve(0, n).txs);
    assert Wrap(k) == k && Wrap(l) == l;
  }

  /** Whatever anyone detects in a ledger a run has passed without skipping it, about an escrow due there, is valid. */
  lemma PassedEventsAreValid(e: Env, s: Sys, trace: seq<Action>, n: u32, tracked: set<Id>, f: Fact)
    requires Initial(s) && OneHistory(e) && Identity.WellHashed(e) && Quiet(trace) && 0 < First(e, s) <= n
    requires Identity.FactOf(e, n, tracked, f)
    requires var t := Exec(e, s, trace);
      && n <= CursorOf(t.disk) && !Skipped(GapsOf(t.disk), n)
      && CrashReplay.DueAt(e, BasisOf(e, s), GapsOf(t.disk), n, f.escrow)
    ensures Validate(FromEscrowEvent(e.name, f))
  {
    var t := Exec(e, s, trace);
    var g := CrashReplay.DueEscrowsMissNothing(e, s, trace, n, tracked, f);
    NoSilentLoss(e, s, trace, n);
    assert Accounted(e, t.hist, GapsOf(t.disk), n);
    var w := t.hist.derived[n];
    var after := Discovered(w.before, w.meta.txs, e.approved).value;
    assert w.meta == e.serve(0, n);
    assert Identity.FactOf(e, n, after.tracked, g);
    SameEventSameVerdict(e, n, tracked, f, after.tracked, g);
    Notices.AlwaysValid(e, s, trace);
    assert Published(e, t.hist.log, g);
  }

  /**
   Under one history and without registry commands no number of restarts helps: a ledger
   with an unpublishable event about an escrow that is due holds the cursor below it in
   every run that does not skip it.
   */
  lemma PoisonHoldsTheCursor(e: Env, s: Sys, trace: seq<Action>, n: u32, tracked: set<Id>, f: Fact)
    requires Initial(s) && OneHistory(e) && Identity.WellHashed(e) && Quiet(trace) && 0 < First(e, s) <= n
    requires Identity.FactOf(e, n, tracked, f) && !Validate(FromEscrowEvent(e.name, f))
    requires var gaps := GapsOf(Exec(e, s, trace).disk);
      !Skipped(gaps, n) && CrashReplay.DueAt(e, BasisOf(e, s), gaps, n, f.escrow)
    ensures CursorOf(Exec(e, s, trace).disk) < n
  {
    if CursorOf(Exec(e, s, trace).disk) >= n {
      PassedEventsAreValid(e, s, trace, n, tracked, f);
    }
  }

  // ---- A deployment that never gets past its first ledger --------------------------------------------

  function Mute(id: Id, raw: string): Tx {
    Tx(true, "a", 1, Some([]), [Some([Event(Some(id), Some([]), raw)])])
  }

  /** The seeded escrow emits an event without topics in the very first ledger. */
  function Poisoned(id: Id, raw: string): Env {
    Env("network", "net", {}, [id], 1, 0, false,
        (k: nat, n: u32) => Ledger(n + 1, n, 0, if n == 1 then [Mute(id, raw)] else []))
  }

  lemma MuteEvents(id: Id, raw: string)
    ensures Flatten(Mute(id, raw).ops) == Some([Event(Some(id), Some([]), raw)])
  {
    var ops, ev := Mute(id, raw).ops, Event(Some(id), Some([]), raw);
    assert ops[..0] == [] && [] + [ev] == [ev];
  }

  lemma PoisonedIsSound(id: Id, raw: string)
    ensures OneHistory(Poisoned(id, raw)) && Identity.WellHashed(Poisoned(id, raw))
  {
    MuteEvents(id, raw);
  }

  lemma OnlyTransaction(tx: Tx, m: Members, approved: set<string>, ledger: u32, closedAt: int, tracked: set<Id>)
    requires tx.successful && tx.changes == Some([]) && Flatten(tx.ops).Some?
    ensures Discovered(m, [tx], approved) == Some(m)
    ensures Detected([tx], ledger, closedAt, tracked) == DetectedInTx(tx, ledger, closedAt, tracked)
  {
    assert [tx][..0] == [] && [tx][1..] == [];
    var last := DetectedInTx(tx, ledger, closedAt, tracked).value;
    assert [] + last == last;
    assert m.tracked + ({} - m.removed) == m.tracked;
  }

  /** The first ledger holds an unpublishable fact, about an escrow due from the start. */
  lemma PoisonedFact(id: Id, raw: string) returns (f: Fact)
    requires id != ""
    ensures Identity.FactOf(Poisoned(id, raw), 1, {id}, f) && f.escrow == id
    ensures !Validate(FromEscrowEvent("net", f))
    ensures OfLedger(Poisoned(id, raw), Members({id}, {}), 1).Some?
    ensures id in OfLedger(Poisoned(id, raw), Members({id}, {}), 1).value.members.tracked
  {
    MuteEvents(id, raw);
    OnlyTransaction(Mute(id, raw), Members({id}, {}), {}, 1, 0, {id});
    f := UnpublishableFact("net", Mute(id, raw), 1, 0, {id}, id, raw);
  }

  /** However often it is restarted, this deployment's cursor never reaches the first ledger but by skipping it. */
  lemma NeverPastTheFirstLedger(id: Id, raw: string, trace: seq<Action>)
    requires id != "" && Quiet(trace)
    ensures var t := Exec(Poisoned(id, raw), Witness.EMPTY, trace);
      Initial(Witness.EMPTY) && (Skipped(GapsOf(t.disk), 1) || CursorOf(t.disk) < 1)
  {
    var e, s := Poisoned(id, raw), Witness.EMPTY;
    PoisonedIsSound(id, raw);
    var f := PoisonedFact(id, raw);
    var gaps := GapsOf(Exec(e, s, trace).disk);
    assert BasisOf(e, s).boot == Members({id}, {});
    assert Due(e, BasisOf(e, s), gaps, 1) == Members({id}, {});
    if !Skipped(gaps, 1) {
      PoisonHoldsTheCursor(e, s, trace, 1, {id}, f);
    }
  }
}
