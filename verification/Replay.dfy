/**
 Crash replay misses nothing. Without commands that change the registry, a run
 that crashed and restarted has delivered, up to its cursor, every message id a
 crash-free run of the same deployment delivers; and one id always carries the
 same event.
 */
module Replay {
  import opened Base
  import opened Ids
  import opened Registry
  import opened Facts
  import opened StateStore
  import opened Machine
  import opened NoLoss

  /** Every session serves the same ledgers. */
  ghost predicate OneHistory(e: Env) {
    forall k: nat, n: u32 :: e.serve(k, n) == e.serve(0, n)
  }

  /** Of all commands only those that leave the registry alone: a refresh, a pause, a resume, a reconcile. */
  predicate QuietAction(a: Action) {
    a.Execute? ==> a.cmd.RefreshEscrow? || a.cmd.Pause? || a.cmd.Resume? || a.cmd.Reconcile?
  }

  predicate Quiet(trace: seq<Action>) {
    forall i :: 0 <= i < |trace| ==> QuietAction(trace[i])
  }

  // ---- The registry a run must have --------------------------------------------------------------

  /** Where a deployment starts and the registry its first process begins with. */
  datatype Basis = Basis(first: u32, boot: Members)

  function OfLedger(e: Env, m: Members, n: u32): Option<Processed> {
    ProcessLedger(m, e.serve(0, n).txs, e.approved, n, e.serve(0, n).closedAt)
  }

  /** The registry due before ledger n: what the ledgers outside the gaps, taken in order, make of the first one. */
  ghost function Due(e: Env, b: Basis, gaps: seq<Gap>, n: nat): Members {
    if n <= b.first || n > U32 then b.boot
    else
      var before := Due(e, b, gaps, n - 1);
      if Skipped(gaps, n - 1) || OfLedger(e, before, n - 1).None? then before
      else OfLedger(e, before, n - 1).value.members
  }

  /** The facts due at ledger n. */
  ghost function DueFacts(e: Env, b: Basis, gaps: seq<Gap>, n: u32): seq<Fact> {
    var r := OfLedger(e, Due(e, b, gaps, n), n);
    if r.None? then [] else r.value.facts
  }

  lemma {:induction false} DueGrows(e: Env, b: Basis, gaps: seq<Gap>, m: nat, n: nat)
    requires m <= n <= U32
    ensures Due(e, b, gaps, n).removed == b.boot.removed
    ensures Due(e, b, gaps, m).tracked <= Due(e, b, gaps, n).tracked
    decreases n
  {
    if n > b.first {
      DueGrows(e, b, gaps, n - 1, n - 1);
      DiscoveryMonotone(Due(e, b, gaps, n - 1), Due(e, b, gaps, n - 1), e.serve(0, n - 1).txs, e.approved);
      if m < n {
        DueGrows(e, b, gaps, m, n - 1);
      }
    }
  }

  /** Gaps at n and above do not matter before n. */
  lemma {:induction false} DueBelow(e: Env, b: Basis, a: seq<Gap>, c: seq<Gap>, n: nat)
    requires forall m :: 0 <= m < n ==> (Skipped(a, m) <==> Skipped(c, m))
    ensures Due(e, b, a, n) == Due(e, b, c, n)
  {
    if n > b.first && n <= U32 {
      DueBelow(e, b, a, c, n - 1);
      assert Skipped(a, n - 1) <==> Skipped(c, n - 1);
    }
  }

  /** Skipped ledgers change nothing. */
  lemma {:induction false} DueAcross(e: Env, b: Basis, gaps: seq<Gap>, m: nat, n: nat)
    requires m <= n <= U32 && forall k :: m <= k < n ==> Skipped(gaps, k)
    ensures Due(e, b, gaps, n).tracked == Due(e, b, gaps, m).tracked || n <= b.first
    decreases n
  {
    if m < n && n > b.first {
      assert Skipped(gaps, n - 1);
      DueAcross(e, b, gaps, m, n - 1);
    }
  }

  // ---- The invariant of any run ----------------------------------------------------------------------

  ghost predicate Clean(m: Members) {
    Disjoint(m) && "" !in m.tracked && "" !in m.removed
  }

  /** The registry holds at least what is due before `next`, under the same tombstones. */
  ghost predicate Suffices(e: Env, b: Basis, m: Members, gaps: seq<Gap>, next: nat) {
    Clean(m) && m.removed == b.boot.removed && Due(e, b, gaps, next).tracked <= m.tracked
  }

  /** Ledger n was skipped, or its last processing derived every fact due. */
  ghost predicate Covered(e: Env, b: Basis, derived: map<u32, Work>, gaps: seq<Gap>, n: u32) {
    Skipped(gaps, n) || (n in derived && Covers(derived[n].facts, DueFacts(e, b, gaps, n)))
  }

  ghost predicate CoveredBelow(e: Env, b: Basis, derived: map<u32, Work>, gaps: seq<Gap>, next: nat) {
    forall n: u32 :: b.first <= n < next ==> Covered(e, b, derived, gaps, n)
  }

  function NextOnDisk(b: Basis, d: Disk): nat {
    if LoadFrom(d).Loaded? then LoadFrom(d).state.lastSeq + 1 else b.first
  }

  /** The ledger whose discoveries the process does not have yet. */
  function NextLive(p: Proc): nat {
    match p.pc
    case Connecting => p.from
    case Saving(lastSeq, _, _, _) => lastSeq + 1
    case Announcing(_) => p.current
    case Head => p.current
    case _ => p.current + 1
  }

  ghost predicate DiskOk(e: Env, b: Basis, s: Sys) {
    !LoadFrom(s.disk).Unreadable? ==>
      && Suffices(e, b, BootMembers(e, LoadFrom(s.disk)), GapsOf(s.disk), NextOnDisk(b, s.disk))
      && CoveredBelow(e, b, s.hist.derived, GapsOf(s.disk), NextOnDisk(b, s.disk))
  }

  ghost predicate LiveOk(e: Env, b: Basis, s: Sys, p: Proc) {
    Suffices(e, b, p.reg, p.gaps, NextLive(p)) && CoveredBelow(e, b, s.hist.derived, p.gaps, NextLive(p))
  }

  ghost predicate Inv(e: Env, b: Basis, s: Sys) {
    DiskOk(e, b, s) && (s.proc.Some? ==> LiveOk(e, b, s, s.proc.value))
  }

  ghost predicate Grounds(e: Env, b: Basis, s: Sys) {
    && OneHistory(e) && NoLoss.Inv(e, s) && BaseIs(s, b.first) && b.first > 0
    && (s.hist.base.None? ==> b.first == e.start)
  }

  // ---- Small facts ---------------------------------------------------------------------------------------

  /** Recording a gap that begins at `next` settles everything up to its end. */
  lemma GapSettles(e: Env, b: Basis, derived: map<u32, Work>, m: Members, gaps: seq<Gap>, g: Gap, next: nat)
    requires Suffices(e, b, m, gaps, next) && CoveredBelow(e, b, derived, gaps, next)
    requires g.fromLedger == next <= g.toLedger
    ensures Suffices(e, b, m, gaps + [g], g.toLedger + 1) && CoveredBelow(e, b, derived, gaps + [g], g.toLedger + 1)
  {
    var more := gaps + [g];
    SkippedMore(gaps, g);
    DueBelow(e, b, gaps, more, next);
    DueAcross(e, b, more, next, g.toLedger + 1);
    forall n: u32 | b.first <= n < g.toLedger + 1
      ensures Covered(e, b, derived, more, n)
    {
      if n < next {
        assert Covered(e, b, derived, gaps, n);
        DueBelow(e, b, gaps, more, n);
      }
    }
  }

  lemma SkippedMore(gaps: seq<Gap>, g: Gap)
    ensures forall n: int :: Skipped(gaps + [g], n) <==> Skipped(gaps, n) || Within(g, n)
  {
    forall n: int
      ensures Skipped(gaps + [g], n) <==> Skipped(gaps, n) || Within(g, n)
    {
      if Skipped(gaps, n) {
        var h :| h in gaps && Within(h, n);
        assert h in gaps + [g];
      }
      if Within(g, n) {
        assert g in gaps + [g];
      }
    }
  }

  /** A save restores to the registry that wrote it, or to the seeds when there was nothing to restore. */
  lemma Restored(e: Env, r: LoadResult, m: Members)
    requires !r.Unreadable? && Clean(m)
    requires Preserved(r).escrows == SortedIds(m.tracked) && Preserved(r).removed == SortedIds(m.removed)
    ensures BootMembers(e, r).removed == m.removed && m.tracked <= BootMembers(e, r).tracked && Clean(BootMembers(e, r))
  {
    var st := Preserved(r);
    assert forall id :: id in st.removed <==> id in m.removed;
    assert forall id :: id in st.escrows <==> id in m.tracked;
    if !Restores(r) {
      assert st.escrows == [] && st.removed == [];
      assert m.tracked == {} && m.removed == {};
    }
  }

  /** What a live process wrote suffices for the next one. */
  lemma WrittenSuffices(e: Env, b: Basis, s: Sys, p: Proc, t: Sys)
    requires LiveOk(e, b, s, p) && t.hist.derived == s.hist.derived && !LoadFrom(t.disk).Unreadable?
    requires var st := Preserved(LoadFrom(t.disk));
      st.escrows == SortedIds(p.reg.tracked) && st.removed == SortedIds(p.reg.removed) && st.gaps == p.gaps
    requires NextOnDisk(b, t.disk) <= NextLive(p) <= U32
    ensures DiskOk(e, b, t)
  {
    Restored(e, LoadFrom(t.disk), p.reg);
    DueGrows(e, b, p.gaps, NextOnDisk(b, t.disk), NextLive(p));
  }

  /** Processing with at least the due registry derives at least the due facts and leaves at least the due registry. */
  lemma ProcessingSuffices(e: Env, b: Basis, m: Members, gaps: seq<Gap>, n: u32)
    requires Suffices(e, b, m, gaps, n) && OfLedger(e, m, n).Some? && b.first <= n
    ensures Suffices(e, b, OfLedger(e, m, n).value.members, gaps, n + 1)
    ensures Covers(OfLedger(e, m, n).value.facts, DueFacts(e, b, gaps, n))
  {
    var due := Due(e, b, gaps, n);
    DueGrows(e, b, gaps, n, n);
    ReprocessingCovers(due, m, e.serve(0, n).txs, e.approved, n, e.serve(0, n).closedAt);
    DiscoveredClean(m, e.serve(0, n).txs, e.approved);
    DiscoveryMonotone(m, m, e.serve(0, n).txs, e.approved);
  }

  lemma {:induction false} DiscoveredClean(m: Members, txs: seq<Tx>, approved: set<string>)
    requires Clean(m) && Discovered(m, txs, approved).Some?
    ensures Clean(Discovered(m, txs, approved).value)
    decreases |txs|
  {
    if |txs| > 0 {
      if !txs[0].successful {
        DiscoveredClean(m, txs[1..], approved);
      } else {
        var d := Deployed(txs[0].changes.value, approved);
        DeployedNames(txs[0].changes.value, approved);
        DiscoveredClean(m.(tracked := m.tracked + (d - m.removed)), txs[1..], approved);
      }
    }
  }

  lemma {:induction false} DeployedNames(changes: seq<Change>, approved: set<string>)
    ensures "" !in Deployed(changes, approved)
    decreases |changes|
  {
    if |changes| > 0 {
      DeployedNames(changes[..|changes| - 1], approved);
    }
  }

  // ---- Every step keeps it --------------------------------------------------------------------------

  lemma BootKeeps(e: Env, b: Basis, s: Sys)
    requires Grounds(e, b, s) && Inv(e, b, s) && BootEnabled(e, s)
    ensures Inv(e, b, Run(s, Booted(e, s)))
  {
    var p := Booted(e, s);
    assert p.gaps == GapsOf(s.disk) && p.reg == BootMembers(e, LoadFrom(s.disk));
    assert NextLive(p) == NextOnDisk(b, s.disk);
  }

  lemma ReachKeeps(e: Env, b: Basis, s: Sys, p: Proc, a: Action)
    requires Grounds(e, b, s) && Inv(e, b, s) && s.proc == Some(p) && ProcEnabled(e, s, p, a) && a.Reach?
    ensures Inv(e, b, ProcStep(e, s, p, a))
  {
    var q := Reached(s, p, a.session, a.asked, a.start);
    assert NextLive(p) == a.asked;
    if a.start == a.asked {
      AdoptedPoint(p, a.session, a.start, p.pc.Connecting?);
    } else {
      GapSettles(e, b, s.hist.derived, p.reg, p.gaps, q.gaps[|p.gaps|], a.asked);
    }
    assert q.reg == p.reg && NextLive(q) == a.start;
  }

  lemma WatchKeeps(e: Env, b: Basis, s: Sys, p: Proc, a: Action)
    requires Grounds(e, b, s) && Inv(e, b, s) && s.proc == Some(p) && ProcEnabled(e, s, p, a) && a.WriteWatch?
    ensures Inv(e, b, ProcStep(e, s, p, a))
  {
    var st := Record(e, p, p.pc.lastSeq, p.pc.lastHash);
    var t := WatchWritten(e, s, p);
    assert t.disk == s.disk.(watch := Some(EncodeWatch(st)));
    WatchReplaced(s.disk, st);
    WrittenSuffices(e, b, s, p, t);
  }

  lemma CursorKeeps(e: Env, b: Basis, s: Sys, p: Proc, a: Action)
    requires Grounds(e, b, s) && Inv(e, b, s) && s.proc == Some(p) && ProcEnabled(e, s, p, a) && a.WriteCursor?
    ensures Inv(e, b, ProcStep(e, s, p, a))
  {
    var st := Record(e, p, p.pc.lastSeq, p.pc.lastHash);
    var t := CursorWritten(e, s, p);
    CursorReplaced(s.disk, st);
    WrittenSuffices(e, b, s, p, t);
    ContinuedNext(e, s, p);
  }

  lemma ContinuedNext(e: Env, s: Sys, p: Proc)
    requires NoLoss.Inv(e, s) && s.proc == Some(p) && p.pc.Saving?
    ensures var q := Continued(p, p.pc.next); NextLive(q) == p.pc.lastSeq + 1 && q.reg == p.reg && q.gaps == p.gaps
  {
  }

  lemma FetchKeeps(e: Env, b: Basis, s: Sys, p: Proc, a: Action)
    requires Grounds(e, b, s) && Inv(e, b, s) && s.proc == Some(p) && ProcEnabled(e, s, p, a) && a.Fetch?
    ensures Inv(e, b, ProcStep(e, s, p, a))
  {
    var t, n := FetchStep(e, s, p), p.current;
    assert Served(e, p) == e.serve(0, n);
    assert b.first <= n;
    ProcessingSuffices(e, b, p.reg, p.gaps, n);
    Overwritten(e, b, s.hist.derived, t.hist.derived, p.gaps, n, n);
    Overwritten(e, b, s.hist.derived, t.hist.derived, GapsOf(s.disk), n, NextOnDisk(b, s.disk));
  }

  /** Deriving ledger n again leaves the cover of the ledgers before it. */
  lemma Overwritten(e: Env, b: Basis, derived: map<u32, Work>, now: map<u32, Work>, gaps: seq<Gap>, n: u32, next: nat)
    requires CoveredBelow(e, b, derived, gaps, next) && next <= n
    requires forall m :: m in derived && m != n ==> m in now && now[m] == derived[m]
    ensures CoveredBelow(e, b, now, gaps, next)
  {
    forall m: u32 | b.first <= m < next
      ensures Covered(e, b, now, gaps, m)
    {
      assert Covered(e, b, derived, gaps, m);
    }
  }

  /** The other steps, quiet commands among them, touch neither registry nor files nor what was derived. */
  lemma PlainStep(e: Env, b: Basis, s: Sys, t: Sys)
    requires Inv(e, b, s) && s.proc.Some? && t.proc.Some?
    requires t.disk == s.disk && t.hist.derived == s.hist.derived
    requires var p, q := s.proc.value, t.proc.value;
      q.reg == p.reg && q.gaps == p.gaps && NextLive(q) == NextLive(p)
    ensures Inv(e, b, t)
  {
  }

  lemma PublishKeeps(e: Env, b: Basis, s: Sys, p: Proc, a: Action)
    requires Inv(e, b, s) && s.proc == Some(p) && ProcEnabled(e, s, p, a)
    requires a.Announce? || a.Deliver? || a.PublishState? || a.PublishSweep? || a.Answer?
    ensures Inv(e, b, ProcStep(e, s, p, a))
  {
    PlainStep(e, b, s, ProcStep(e, s, p, a));
  }

  lemma OtherKeeps(e: Env, b: Basis, s: Sys, p: Proc, a: Action)
    requires Grounds(e, b, s) && Inv(e, b, s) && s.proc == Some(p) && ProcEnabled(e, s, p, a) && QuietAction(a)
    requires a.Execute? || a.Flush? || a.Advance?
    ensures Inv(e, b, ProcStep(e, s, p, a))
  {
    PlainStep(e, b, s, ProcStep(e, s, p, a));
  }

  lemma DecideKeeps(e: Env, b: Basis, s: Sys, p: Proc, a: Action)
    requires Inv(e, b, s) && s.proc == Some(p) && ProcEnabled(e, s, p, a)
    requires a.Defer? || a.Snapshot? || a.SweepSkip? || a.Sweep? || a.Check?
    ensures Inv(e, b, ProcStep(e, s, p, a))
  {
    PlainStep(e, b, s, ProcStep(e, s, p, a));
  }

  lemma ProcKeeps(e: Env, b: Basis, s: Sys, p: Proc, a: Action)
    requires Grounds(e, b, s) && Inv(e, b, s) && s.proc == Some(p) && ProcEnabled(e, s, p, a) && QuietAction(a)
    ensures Inv(e, b, ProcStep(e, s, p, a))
  {
    if a.Reach? {
      ReachKeeps(e, b, s, p, a);
    } else if a.WriteWatch? {
      WatchKeeps(e, b, s, p, a);
    } else if a.WriteCursor? {
      CursorKeeps(e, b, s, p, a);
    } else if a.Fetch? {
      FetchKeeps(e, b, s, p, a);
    } else if a.Announce? || a.Deliver? || a.PublishState? || a.PublishSweep? || a.Answer? {
      PublishKeeps(e, b, s, p, a);
    } else if a.Defer? || a.Snapshot? || a.SweepSkip? || a.Sweep? || a.Check? {
      DecideKeeps(e, b, s, p, a);
    } else {
      OtherKeeps(e, b, s, p, a);
    }
  }

  lemma StepKeeps(e: Env, b: Basis, s: Sys, a: Action)
    requires Grounds(e, b, s) && Inv(e, b, s) && Enabled(e, s, a) && QuietAction(a)
    ensures Inv(e, b, Step(e, s, a))
  {
    if a.Boot? {
      BootKeeps(e, b, s);
    } else if !a.Tick? && !a.Crash? {
      ProcKeeps(e, b, s, s.proc.value, a);
    }
  }

  /** The basis of a deployment: its first ledger and the registry a boot would give it. */
  function BasisOf(e: Env, s: Sys): Basis {
    Basis(First(e, s), if LoadFrom(s.disk).Unreadable? then NOBODY else BootMembers(e, LoadFrom(s.disk)))
  }

  lemma InitialInv(e: Env, s: Sys)
    requires Initial(s) && First(e, s) != 0
    ensures Inv(e, BasisOf(e, s), s)
  {
    var r := LoadFrom(s.disk);
    if !r.Unreadable? {
      BootClean(e, r);
    }
  }

  lemma BootClean(e: Env, r: LoadResult)
    requires !r.Unreadable?
    ensures Clean(BootMembers(e, r))
  {
  }

  lemma {:induction false} InvAlways(e: Env, s: Sys, trace: seq<Action>)
    requires Initial(s) && OneHistory(e) && First(e, s) != 0 && Quiet(trace)
    ensures Inv(e, BasisOf(e, s), Exec(e, s, trace))
    ensures Grounds(e, BasisOf(e, s), Exec(e, s, trace))
  {
    NoLoss.InvAlways(e, s, trace);
    BaseAlways(e, s, trace);
    if |trace| == 0 {
      InitialInv(e, s);
    } else {
      var n := |trace| - 1;
      InvAlways(e, s, trace[..n]);
      assert QuietAction(trace[n]);
      if Enabled(e, Exec(e, s, trace[..n]), trace[n]) {
        StepKeeps(e, BasisOf(e, s), Exec(e, s, trace[..n]), trace[n]);
      }
    }
  }
}
