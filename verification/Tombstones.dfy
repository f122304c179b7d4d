/**
 Tombstones outlive the process. Once a removal is on disk, no discovery, reseed,
 crash, restart or orphan recovery makes the contract tracked again; only an
 explicit track command for that very id does.
 */
module Tombstones {
  import opened Base
  import opened Ids
  import opened Registry
  import opened Facts
  import opened StateStore
  import opened Machine
  import Control
  import NoLoss

  ghost predicate Buried(m: Members, id: Id) {
    Disjoint(m) && id in m.removed
  }

  /** A load restores the tombstone. */
  predicate OnDisk(d: Disk, id: Id) {
    !LoadFrom(d).Unreadable? && id in Preserved(LoadFrom(d)).removed
  }

  ghost predicate Inv(s: Sys, id: Id) {
    OnDisk(s.disk, id) && (s.proc.Some? ==> Buried(s.proc.value.reg, id))
  }

  lemma BootBuries(e: Env, s: Sys, id: Id)
    requires BootEnabled(e, s) && OnDisk(s.disk, id) && id != ""
    ensures Buried(Booted(e, s).reg, id)
  {
    var st := Preserved(LoadFrom(s.disk));
    assert |st.removed| > 0;
    DisjointAlways(NOBODY, [SeedRemoved(st.removed), Seed(st.escrows)]);
    var ops := [SeedRemoved(st.removed), Seed(st.escrows)];
    assert ops[1..] == [Seed(st.escrows)] && ops[1..][1..] == [];
    assert ApplyAll(NOBODY, ops) == ApplyAll(Apply(NOBODY, ops[0]), ops[1..]);
    assert ApplyAll(Apply(NOBODY, ops[0]), ops[1..]) == ApplyAll(Apply(Apply(NOBODY, ops[0]), ops[1]), []);
  }

  lemma {:induction false} DiscoveryBuries(m: Members, txs: seq<Tx>, approved: set<string>, id: Id)
    requires Buried(m, id) && Discovered(m, txs, approved).Some?
    ensures Buried(Discovered(m, txs, approved).value, id)
    decreases |txs|
  {
    if |txs| > 0 {
      if !txs[0].successful {
        DiscoveryBuries(m, txs[1..], approved, id);
      } else {
        var d := Deployed(txs[0].changes.value, approved);
        DiscoveryBuries(m.(tracked := m.tracked + (d - m.removed)), txs[1..], approved, id);
      }
    }
  }

  /** Every command but tracking that very id leaves it buried. */
  lemma CommandBuries(m: Members, cmd: Control.Command, id: Id)
    requires Buried(m, id) && cmd != Control.TrackEscrow(id)
    ensures Buried(Control.Execute(m, cmd).members, id)
  {
  }

  /** The first write of any save puts the process's tombstones on disk. */
  lemma RemovalReachesDisk(e: Env, s: Sys, p: Proc, id: Id)
    requires NoLoss.Inv(e, s) && Buried(p.reg, id) && s.proc == Some(p) && p.pc.Saving? && !p.pc.wrote
    ensures Inv(WatchWritten(e, s, p), id)
  {
    var st := Record(e, p, p.pc.lastSeq, p.pc.lastHash);
    assert WatchWritten(e, s, p).disk == s.disk.(watch := Some(EncodeWatch(st)));
    assert id in SortedIds(p.reg.removed);
  }

  lemma CursorKeeps(e: Env, s: Sys, p: Proc, id: Id)
    requires NoLoss.Inv(e, s) && Inv(s, id) && s.proc == Some(p) && p.pc.Saving? && p.pc.wrote
    ensures Inv(CursorWritten(e, s, p), id)
  {
    var st := Record(e, p, p.pc.lastSeq, p.pc.lastHash);
    NoLoss.CursorReplaced(s.disk, st);
    assert id in SortedIds(p.reg.removed);
    ContinueKeepsRegistry(p);
  }

  lemma ContinueKeepsRegistry(p: Proc)
    requires p.pc.Saving?
    ensures Continued(p, p.pc.next).reg == p.reg
  {
  }

  /** Only discovery and commands touch a registry. */
  lemma RegistryUntouched(e: Env, s: Sys, p: Proc, a: Action)
    requires s.proc == Some(p) && ProcEnabled(e, s, p, a)
    requires !a.Fetch? && !a.Execute? && !a.WriteCursor? && !a.WriteWatch?
    ensures ProcStep(e, s, p, a).disk == s.disk
    ensures ProcStep(e, s, p, a).proc.Some? && ProcStep(e, s, p, a).proc.value.reg == p.reg
  {
  }

  lemma StepKeeps(e: Env, s: Sys, a: Action, id: Id)
    requires NoLoss.Inv(e, s) && Inv(s, id) && Enabled(e, s, a) && id != ""
    requires a.Execute? ==> a.cmd != Control.TrackEscrow(id)
    ensures Inv(Step(e, s, a), id)
  {
    if a.Boot? {
      BootBuries(e, s, id);
    } else if !a.Tick? && !a.Crash? {
      ProcKeeps(e, s, s.proc.value, a, id);
    }
  }

  lemma ProcKeeps(e: Env, s: Sys, p: Proc, a: Action, id: Id)
    requires NoLoss.Inv(e, s) && Inv(s, id) && s.proc == Some(p) && ProcEnabled(e, s, p, a)
    requires a.Execute? ==> a.cmd != Control.TrackEscrow(id)
    ensures Inv(ProcStep(e, s, p, a), id)
  {
    if a.Fetch? {
      DiscoveryBuries(p.reg, Served(e, p).txs, e.approved, id);
    } else if a.Execute? {
      CommandBuries(p.reg, a.cmd, id);
    } else if a.WriteWatch? {
      RemovalReachesDisk(e, s, p, id);
    } else if a.WriteCursor? {
      CursorKeeps(e, s, p, id);
    } else {
      RegistryUntouched(e, s, p, a);
    }
  }

  predicate NeverTracked(trace: seq<Action>, from: nat, id: Id) {
    forall i :: from <= i < |trace| && trace[i].Execute? ==> trace[i].cmd != Control.TrackEscrow(id)
  }

  /** No process ever tracks what it has tombstoned. */
  ghost predicate Consistent(s: Sys) {
    s.proc.Some? ==> Disjoint(s.proc.value.reg)
  }

  lemma {:induction false} DiscoveryConsistent(m: Members, txs: seq<Tx>, approved: set<string>)
    requires Disjoint(m) && Discovered(m, txs, approved).Some?
    ensures Disjoint(Discovered(m, txs, approved).value)
    decreases |txs|
  {
    if |txs| > 0 {
      if !txs[0].successful {
        DiscoveryConsistent(m, txs[1..], approved);
      } else {
        var d := Deployed(txs[0].changes.value, approved);
        DiscoveryConsistent(m.(tracked := m.tracked + (d - m.removed)), txs[1..], approved);
      }
    }
  }

  lemma StepConsistent(e: Env, s: Sys, a: Action)
    requires Consistent(s) && Enabled(e, s, a)
    ensures Consistent(Step(e, s, a))
  {
    if a.Fetch? {
      var p := s.proc.value;
      DiscoveryConsistent(p.reg, Served(e, p).txs, e.approved);
    } else if a.WriteCursor? {
      ContinueKeepsRegistry(s.proc.value);
    } else if !a.Boot? && !a.Tick? && !a.Crash? && !a.Execute? && !a.WriteWatch? {
      RegistryUntouched(e, s, s.proc.value, a);
    }
  }

  lemma {:induction false} AlwaysConsistent(e: Env, s: Sys, trace: seq<Action>)
    requires Initial(s)
    ensures Consistent(Exec(e, s, trace))
  {
    if |trace| > 0 {
      var before := Exec(e, s, trace[..|trace| - 1]);
      AlwaysConsistent(e, s, trace[..|trace| - 1]);
      if Enabled(e, before, trace[|trace| - 1]) {
        StepConsistent(e, before, trace[|trace| - 1]);
      }
    }
  }

  /**
   From a moment when a removal is on disk, and the process then running (if any)
   has not since taken it back, the id stays tombstoned on disk and in every
   process to come, and is never tracked, unless a track command names it.
   */
  lemma TombstonesPermanent(e: Env, s: Sys, trace: seq<Action>, from: nat, id: Id)
    requires Initial(s) && from <= |trace| && id != "" && NeverTracked(trace, from, id)
    requires var was := Exec(e, s, trace[..from]);
      OnDisk(was.disk, id) && (was.proc.Some? ==> id in was.proc.value.reg.removed)
    ensures var now := Exec(e, s, trace);
      && OnDisk(now.disk, id)
      && (now.proc.Some? ==> id in now.proc.value.reg.removed && id !in now.proc.value.reg.tracked)
  {
    AlwaysConsistent(e, s, trace[..from]);
    TombstonesInv(e, s, trace, from, id);
  }

  lemma {:induction false} TombstonesInv(e: Env, s: Sys, trace: seq<Action>, from: nat, id: Id)
    requires Initial(s) && from <= |trace| && id != "" && NeverTracked(trace, from, id)
    requires Inv(Exec(e, s, trace[..from]), id)
    ensures Inv(Exec(e, s, trace), id)
    decreases |trace|
  {
    var n := |trace| - 1;
    if from == |trace| {
      assert trace[..from] == trace;
    } else {
      assert trace[..n][..from] == trace[..from];
      TombstonesInv(e, s, trace[..n], from, id);
      NoLoss.InvAlways(e, s, trace[..n]);
      if Enabled(e, Exec(e, s, trace[..n]), trace[n]) {
        StepKeeps(e, Exec(e, s, trace[..n]), trace[n], id);
      }
    }
  }
}
