/**
 What a crash costs the consumer: nothing. A crash-free run never derives more
 than is due, a crashed and restarted run never less, and whatever either of them
 delivers under one message id is the same event.
 */
module CrashReplay {
  import opened Base
  import opened Ids
  import opened Registry
  import opened Facts
  import opened StateStore
  import opened Machine
  import opened NoLoss
  import opened Replay
  import Identity

  // ---- A crash-free run derives no more than is due ----------------------------------------------

  predicate CrashFree(trace: seq<Action>) {
    forall i :: 0 <= i < |trace| ==> !trace[i].Crash?
  }

  /** No ledger processed below `limit` lies in the gaps. */
  ghost predicate Avoids(derived: map<u32, Work>, gaps: seq<Gap>, limit: nat) {
    forall n: u32 :: n in derived && n < limit ==> !Skipped(gaps, n)
  }

  ghost predicate NoMore(e: Env, b: Basis, gaps: seq<Gap>, limit: nat, derived: map<u32, Work>) {
    forall n: u32 :: n in derived && n < limit ==> Covers(DueFacts(e, b, gaps, n), derived[n].facts)
  }

  ghost predicate LiveAtMost(e: Env, b: Basis, gaps: seq<Gap>, limit: nat, p: Proc) {
    p.reg.removed == b.boot.removed && (NextLive(p) <= limit ==> p.reg.tracked <= Due(e, b, gaps, NextLive(p)).tracked)
  }

  ghost predicate AtMost(e: Env, b: Basis, gaps: seq<Gap>, limit: nat, s: Sys) {
    Avoids(s.hist.derived, gaps, limit) ==>
      && NoMore(e, b, gaps, limit, s.hist.derived)
      && (s.proc.Some? ==> LiveAtMost(e, b, gaps, limit, s.proc.value))
  }

  /** Before the one boot of a crash-free run the files are as they were found. */
  ghost predicate Untouched(e: Env, b: Basis, s: Sys) {
    s.proc.None? && !LoadFrom(s.disk).Unreadable? ==>
      BootMembers(e, LoadFrom(s.disk)) == b.boot && NextOnDisk(b, s.disk) == b.first
  }

  lemma BootAtMost(e: Env, b: Basis, gaps: seq<Gap>, limit: nat, s: Sys)
    requires Grounds(e, b, s) && AtMost(e, b, gaps, limit, s) && Untouched(e, b, s) && BootEnabled(e, s)
    ensures AtMost(e, b, gaps, limit, Run(s, Booted(e, s)))
  {
  }

  /** Moving on over ledgers that were not processed only raises what is due. */
  lemma MovesOn(e: Env, b: Basis, gaps: seq<Gap>, limit: nat, p: Proc, q: Proc)
    requires LiveAtMost(e, b, gaps, limit, p) && q.reg == p.reg && NextLive(p) <= NextLive(q) <= U32
    ensures LiveAtMost(e, b, gaps, limit, q)
  {
    DueGrows(e, b, gaps, NextLive(p), NextLive(q));
  }

  lemma FetchAtMost(e: Env, b: Basis, gaps: seq<Gap>, limit: nat, s: Sys, p: Proc)
    requires Grounds(e, b, s) && AtMost(e, b, gaps, limit, s) && s.proc == Some(p) && FetchEnabled(e, p)
    ensures AtMost(e, b, gaps, limit, FetchStep(e, s, p))
  {
    var t, n := FetchStep(e, s, p), p.current;
    if Avoids(t.hist.derived, gaps, limit) {
      assert Avoids(s.hist.derived, gaps, limit) by {
        assert forall m: u32 :: m in s.hist.derived ==> m in t.hist.derived;
      }
      assert Served(e, p) == e.serve(0, n);
      DiscoveryMonotone(p.reg, p.reg, Served(e, p).txs, e.approved);
      if n < limit {
        assert n in t.hist.derived;
        NoMoreDerived(e, b, p.reg, gaps, n);
      }
    }
  }

  lemma NoMoreDerived(e: Env, b: Basis, m: Members, gaps: seq<Gap>, n: u32)
    requires m.removed == b.boot.removed && m.tracked <= Due(e, b, gaps, n).tracked && !Skipped(gaps, n)
    requires OfLedger(e, m, n).Some? && b.first <= n
    ensures OfLedger(e, m, n).value.members.removed == m.removed
    ensures OfLedger(e, m, n).value.members.tracked <= Due(e, b, gaps, n + 1).tracked
    ensures Covers(DueFacts(e, b, gaps, n), OfLedger(e, m, n).value.facts)
  {
    DueGrows(e, b, gaps, n, n);
    ReprocessingCovers(m, Due(e, b, gaps, n), e.serve(0, n).txs, e.approved, n, e.serve(0, n).closedAt);
    DiscoveryMonotone(m, m, e.serve(0, n).txs, e.approved);
  }

  lemma ReachAtMost(e: Env, b: Basis, gaps: seq<Gap>, limit: nat, s: Sys, p: Proc, a: Action)
    requires Grounds(e, b, s) && AtMost(e, b, gaps, limit, s) && s.proc == Some(p) && ProcEnabled(e, s, p, a)
    requires a.Reach?
    ensures AtMost(e, b, gaps, limit, ProcStep(e, s, p, a))
  {
    var q := Reached(s, p, a.session, a.asked, a.start);
    if a.start == a.asked {
      AdoptedPoint(p, a.session, a.start, p.pc.Connecting?);
    }
    assert q.reg == p.reg && NextLive(q) == a.start;
    if Avoids(s.hist.derived, gaps, limit) {
      MovesOn(e, b, gaps, limit, p, q);
    }
  }

  lemma SaveAtMost(e: Env, b: Basis, gaps: seq<Gap>, limit: nat, s: Sys, p: Proc, a: Action)
    requires Grounds(e, b, s) && AtMost(e, b, gaps, limit, s) && s.proc == Some(p) && ProcEnabled(e, s, p, a)
    requires a.WriteWatch? || a.WriteCursor?
    ensures AtMost(e, b, gaps, limit, ProcStep(e, s, p, a))
  {
    if a.WriteCursor? {
      ContinuedNext(e, s, p);
    }
  }

  lemma PlainAtMost(e: Env, b: Basis, gaps: seq<Gap>, limit: nat, s: Sys, t: Sys)
    requires AtMost(e, b, gaps, limit, s) && s.proc.Some? && t.proc.Some? && t.hist.derived == s.hist.derived
    requires var p, q := s.proc.value, t.proc.value; q.reg == p.reg && NextLive(q) == NextLive(p)
    ensures AtMost(e, b, gaps, limit, t)
  {
  }

  lemma PublishAtMost(e: Env, b: Basis, gaps: seq<Gap>, limit: nat, s: Sys, p: Proc, a: Action)
    requires AtMost(e, b, gaps, limit, s) && s.proc == Some(p) && ProcEnabled(e, s, p, a)
    requires a.Announce? || a.Deliver? || a.PublishState? || a.PublishSweep? || a.Answer?
    ensures AtMost(e, b, gaps, limit, ProcStep(e, s, p, a))
  {
    PlainAtMost(e, b, gaps, limit, s, ProcStep(e, s, p, a));
  }

  lemma OtherAtMost(e: Env, b: Basis, gaps: seq<Gap>, limit: nat, s: Sys, p: Proc, a: Action)
    requires Grounds(e, b, s) && AtMost(e, b, gaps, limit, s) && s.proc == Some(p) && ProcEnabled(e, s, p, a)
    requires QuietAction(a)
    requires a.Execute? || a.Flush? || a.Advance?
    ensures AtMost(e, b, gaps, limit, ProcStep(e, s, p, a))
  {
    PlainAtMost(e, b, gaps, limit, s, ProcStep(e, s, p, a));
  }

  lemma DecideAtMost(e: Env, b: Basis, gaps: seq<Gap>, limit: nat, s: Sys, p: Proc, a: Action)
    requires AtMost(e, b, gaps, limit, s) && s.proc == Some(p) && ProcEnabled(e, s, p, a)
    requires a.Defer? || a.Snapshot? || a.SweepSkip? || a.Sweep? || a.Check?
    ensures AtMost(e, b, gaps, limit, ProcStep(e, s, p, a))
  {
    PlainAtMost(e, b, gaps, limit, s, ProcStep(e, s, p, a));
  }

  lemma ProcAtMost(e: Env, b: Basis, gaps: seq<Gap>, limit: nat, s: Sys, p: Proc, a: Action)
    requires Grounds(e, b, s) && AtMost(e, b, gaps, limit, s) && s.proc == Some(p) && ProcEnabled(e, s, p, a)
    requires QuietAction(a)
    ensures AtMost(e, b, gaps, limit, ProcStep(e, s, p, a))
  {
    if a.Reach? {
      ReachAtMost(e, b, gaps, limit, s, p, a);
    } else if a.WriteWatch? || a.WriteCursor? {
      SaveAtMost(e, b, gaps, limit, s, p, a);
    } else if a.Fetch? {
      FetchAtMost(e, b, gaps, limit, s, p);
    } else if a.Announce? || a.Deliver? || a.PublishState? || a.PublishSweep? || a.Answer? {
      PublishAtMost(e, b, gaps, limit, s, p, a);
    } else if a.Defer? || a.Snapshot? || a.SweepSkip? || a.Sweep? || a.Check? {
      DecideAtMost(e, b, gaps, limit, s, p, a);
    } else {
      OtherAtMost(e, b, gaps, limit, s, p, a);
    }
  }

  lemma StepAtMost(e: Env, b: Basis, gaps: seq<Gap>, limit: nat, s: Sys, a: Action)
    requires Grounds(e, b, s) && AtMost(e, b, gaps, limit, s) && Untouched(e, b, s) && Enabled(e, s, a)
    requires QuietAction(a) && !a.Crash?
    ensures AtMost(e, b, gaps, limit, Step(e, s, a)) && Untouched(e, b, Step(e, s, a))
  {
    if a.Boot? {
      BootAtMost(e, b, gaps, limit, s);
    } else if !a.Tick? {
      ProcAtMost(e, b, gaps, limit, s, s.proc.value, a);
      StaysAlive(e, s, a);
    }
  }

  lemma StaysAlive(e: Env, s: Sys, a: Action)
    requires Enabled(e, s, a) && !a.Crash? && !a.Tick?
    ensures Step(e, s, a).proc.Some?
  {
  }

  lemma {:induction false} CrashFreeAtMost(e: Env, s: Sys, trace: seq<Action>, gaps: seq<Gap>, limit: nat)
    requires Initial(s) && OneHistory(e) && First(e, s) != 0 && Quiet(trace) && CrashFree(trace)
    ensures AtMost(e, BasisOf(e, s), gaps, limit, Exec(e, s, trace)) && Untouched(e, BasisOf(e, s), Exec(e, s, trace))
  {
    if |trace| > 0 {
      var n := |trace| - 1;
      CrashFreeAtMost(e, s, trace[..n], gaps, limit);
      Replay.InvAlways(e, s, trace[..n]);
      assert QuietAction(trace[n]);
      if Enabled(e, Exec(e, s, trace[..n]), trace[n]) {
        StepAtMost(e, BasisOf(e, s), gaps, limit, Exec(e, s, trace[..n]), trace[n]);
      }
    }
  }

  // ---- The comparison ------------------------------------------------------------------------------------

  lemma CoversTransitive(a: seq<Fact>, b: seq<Fact>, c: seq<Fact>, f: Fact) returns (g: Fact)
    requires Covers(a, b) && Covers(b, c) && f in c
    ensures g in a && SamePayload(f, g)
  {
    var h :| h in b && SamePayload(f, h);
    g :| g in a && SamePayload(h, g);
  }

  /**
   Two runs of one deployment under one history, with no registry command: every
   fact the crash-free one derived for a ledger up to the crashed one's durable
   cursor, the crashed one delivered too, under the same id and with the same
   payload. The crash-free run is taken over ledgers the other one did not skip.
   */
  lemma CrashReplayMissesNothing(e: Env, s: Sys, free: seq<Action>, crashed: seq<Action>, n: u32, f: Fact)
      returns (g: Fact)
    requires Initial(s) && OneHistory(e) && First(e, s) != 0
    requires Quiet(free) && CrashFree(free) && Quiet(crashed)
    requires var a, b := Exec(e, s, free), Exec(e, s, crashed);
      && First(e, s) <= n <= CursorOf(b.disk)
      && Avoids(a.hist.derived, GapsOf(b.disk), n + 1)
      && n in a.hist.derived && f in a.hist.derived[n].facts
    ensures var b := Exec(e, s, crashed);
      && IdOf(g) == IdOf(f) && SamePayload(f, g)
      && n in b.hist.derived && g in b.hist.derived[n].facts && Published(e, b.hist.log, g)
  {
    var a, b := Exec(e, s, free), Exec(e, s, crashed);
    var gaps := GapsOf(b.disk);
    CrashFreeAtMost(e, s, free, gaps, n + 1);
    Replay.InvAlways(e, s, crashed);
    assert Covered(e, BasisOf(e, s), b.hist.derived, gaps, n);
    NoSilentLoss(e, s, crashed, n);
    assert Accounted(e, b.hist, gaps, n);
    g := CoversTransitive(b.hist.derived[n].facts, DueFacts(e, BasisOf(e, s), gaps, n), a.hist.derived[n].facts, f);
  }

  // ---- Skipped ledgers cost only what was deployed in them --------------------------------------------

  /** Escrow id is tracked, when ledger n is detected, by whoever processed the ledgers outside the gaps. */
  ghost predicate DueAt(e: Env, b: Basis, gaps: seq<Gap>, n: u32, id: Id) {
    var r := OfLedger(e, Due(e, b, gaps, n), n);
    r.Some? && id in r.value.members.tracked
  }

  /** An event about an escrow is of interest to any registry that tracks the escrow. */
  lemma OfInterestToBoth(e: Env, n: u32, tracked: set<Id>, more: set<Id>, f: Fact) returns (g: Fact)
    requires Identity.FactOf(e, n, tracked, f) && f.escrow in more
    requires Detected(e.serve(0, n).txs, n, e.serve(0, n).closedAt, more).Some?
    ensures Identity.FactOf(e, n, more, g) && SamePayload(f, g)
  {
    var txs, closedAt := e.serve(0, n).txs, e.serve(0, n).closedAt;
    DetectedMakes(txs, n, closedAt, tracked, f);
    var tx: Tx, k: nat :| tx in txs && Makes(tx, n, closedAt, tracked, k, f);
    var ev := Flatten(tx.ops).value[k];
    g := FactOf(tx, n, closedAt, k, ev, Classify(ev, more).value);
    assert Makes(tx, n, closedAt, more, k, g);
    DetectedMakes(txs, n, closedAt, more, g);
  }

  /**
   Whatever anyone could detect in a ledger up to the cursor of a run, outside its gaps
   and about an escrow due to be tracked there, that run delivered, under the same id
   and with the same payload. Crashes cost nothing, then, and a skipped ledger costs
   later ledgers only the escrows that were deployed in skipped ledgers alone.
   */
  lemma DueEscrowsMissNothing(e: Env, s: Sys, crashed: seq<Action>, n: u32, tracked: set<Id>, f: Fact) returns (g: Fact)
    requires Initial(s) && OneHistory(e) && First(e, s) != 0 && Quiet(crashed)
    requires var b := Exec(e, s, crashed);
      && First(e, s) <= n <= CursorOf(b.disk) && !Skipped(GapsOf(b.disk), n)
      && Identity.FactOf(e, n, tracked, f) && DueAt(e, BasisOf(e, s), GapsOf(b.disk), n, f.escrow)
    ensures var b := Exec(e, s, crashed);
      && IdOf(g) == IdOf(f) && SamePayload(f, g)
      && n in b.hist.derived && g in b.hist.derived[n].facts && Published(e, b.hist.log, g)
  {
    var b := Exec(e, s, crashed);
    var gaps := GapsOf(b.disk);
    var due := OfLedger(e, Due(e, BasisOf(e, s), gaps, n), n).value.members.tracked;
    var h := OfInterestToBoth(e, n, tracked, due, f);
    Replay.InvAlways(e, s, crashed);
    assert Covered(e, BasisOf(e, s), b.hist.derived, gaps, n);
    NoSilentLoss(e, s, crashed, n);
    assert Accounted(e, b.hist, gaps, n);
    assert h in DueFacts(e, BasisOf(e, s), gaps, n);
    g :| g in b.hist.derived[n].facts && SamePayload(h, g);
  }
}
