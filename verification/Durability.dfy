/**
 How durable an executed command is. A command is acknowledged when it is queued;
 its effect on the registry outlives the process exactly from the first write of the
 save that ends the drain.
 */
module Durability {
  import opened Base
  import opened Ids
  import opened Registry
  import opened StateStore
  import opened Machine
  import Control
  import NoLoss
  import Replay
  import Tombstones

  // ---- What every process can count on -----------------------------------------------------------

  /** A live process holds a clean registry, and the files would let the next process boot. */
  ghost predicate Inv(e: Env, s: Sys) {
    s.proc.Some? ==> Replay.Clean(s.proc.value.reg) && BootEnabled(e, Gone(s))
  }

  function Gone(s: Sys): Sys {
    s.(proc := None)
  }

  lemma CommandClean(m: Members, cmd: Control.Command)
    requires Replay.Clean(m)
    ensures Replay.Clean(Control.Execute(m, cmd).members)
  {
  }

  lemma SavesKeepBooting(e: Env, s: Sys, p: Proc, a: Action)
    requires NoLoss.Inv(e, s) && Inv(e, s) && s.proc == Some(p) && ProcEnabled(e, s, p, a)
    requires a.WriteWatch? || a.WriteCursor?
    ensures Inv(e, ProcStep(e, s, p, a))
  {
    var st := Record(e, p, p.pc.lastSeq, p.pc.lastHash);
    if a.WriteWatch? {
      assert WatchWritten(e, s, p).disk == s.disk.(watch := Some(EncodeWatch(st)));
    } else {
      NoLoss.CursorReplaced(s.disk, st);
      Tombstones.ContinueKeepsRegistry(p);
    }
  }

  lemma StepKeeps(e: Env, s: Sys, a: Action)
    requires NoLoss.Inv(e, s) && Inv(e, s) && Enabled(e, s, a)
    ensures Inv(e, Step(e, s, a))
  {
    if a.Boot? {
      Replay.BootClean(e, LoadFrom(s.disk));
    } else if a.Fetch? {
      var p := s.proc.value;
      Replay.DiscoveredClean(p.reg, Served(e, p).txs, e.approved);
    } else if a.Execute? {
      CommandClean(s.proc.value.reg, a.cmd);
    } else if a.WriteWatch? || a.WriteCursor? {
      SavesKeepBooting(e, s, s.proc.value, a);
    } else if !a.Tick? && !a.Crash? {
      Tombstones.RegistryUntouched(e, s, s.proc.value, a);
    }
  }

  lemma {:induction false} InvAlways(e: Env, s: Sys, trace: seq<Action>)
    requires Initial(s)
    ensures Inv(e, Exec(e, s, trace))
  {
    if |trace| > 0 {
      var n := |trace| - 1;
      var before := Exec(e, s, trace[..n]);
      InvAlways(e, s, trace[..n]);
      NoLoss.InvAlways(e, s, trace[..n]);
      if Enabled(e, before, trace[n]) {
        StepKeeps(e, before, trace[n]);
      }
    }
  }

  /**
   Booting from a record of a clean registry gives back exactly that registry, unless there was
   nothing to restore.
   */
  lemma RestoredExactly(e: Env, r: LoadResult, m: Members)
    requires !r.Unreadable? && Replay.Clean(m) && Restores(r)
    requires Preserved(r).escrows == SortedIds(m.tracked) && Preserved(r).removed == SortedIds(m.removed)
    ensures BootMembers(e, r) == m
  {
    var st := Preserved(r);
    assert forall id :: id in st.removed <==> id in m.removed;
    assert forall id :: id in st.escrows <==> id in m.tracked;
  }

  // ---- A drain and the save that ends it ------------------------------------------------------------

  predicate DrainOnly(acts: seq<Action>) {
    forall i :: 0 <= i < |acts| ==> acts[i].Execute? || acts[i].Answer?
  }

  /** Nothing a drain does reaches the files before the save that ends it. */
  lemma {:induction false} DrainIsVolatile(e: Env, s: Sys, acts: seq<Action>)
    requires s.proc.Some? && DrainOnly(acts)
    ensures Exec(e, s, acts).disk == s.disk && Exec(e, s, acts).proc.Some?
    ensures Exec(e, s, acts).proc.value.gaps == s.proc.value.gaps
    ensures Exec(e, s, acts).proc.value.cache == s.proc.value.cache
  {
    if |acts| > 0 {
      var n := |acts| - 1;
      DrainIsVolatile(e, s, acts[..n]);
      assert acts[n].Execute? || acts[n].Answer?;
    }
  }

  /** The system after the first k steps of the save that ends a drain: the decision to save, then its two writes. */
  ghost function Saving(e: Env, t: Sys, k: nat): Sys
    requires k <= 3 && t.proc.Some? && (k > 0 ==> t.proc.value.pc == Draining(true))
  {
    if k == 0 then t
    else
      var p := t.proc.value;
      var q := p.(pc := Pc.Saving(p.current, p.lastHash, false, Resume));
      if k == 1 then Run(t, q)
      else
        var w := WatchWritten(e, Run(t, q), q);
        if k == 2 then w else CursorWritten(e, w, w.proc.value)
  }

  lemma SavingIsARun(e: Env, t: Sys, k: nat)
    requires k <= 3 && t.proc.Some? && (k > 0 ==> t.proc.value.pc == Draining(true))
    ensures Exec(e, t, [Flush, WriteWatch, WriteCursor][..k]) == Saving(e, t, k)
  {
    var save := [Flush, WriteWatch, WriteCursor];
    assert save[..0] == [];
    if k > 0 {
      assert save[..1][..0] == [];
      assert Exec(e, t, save[..1]) == Saving(e, t, 1);
    }
    if k > 1 {
      assert save[..2][..1] == save[..1];
      assert Exec(e, t, save[..2]) == Saving(e, t, 2);
    }
    if k > 2 {
      assert save[..3][..2] == save[..2];
    }
  }

  /** There is something a boot would restore: a cursor file, or a registry or gap list that is not empty. */
  predicate Lasting(d: Disk, p: Proc) {
    LoadFrom(d).Loaded? || p.reg != NOBODY || p.gaps != []
  }

  /** A load of files whose watchlist is this process's record restores this process's registry. */
  lemma RecordRestores(e: Env, d: Disk, p: Proc, lastSeq: u32, lastHash: Hash)
    requires Replay.Clean(p.reg) && Lasting(d, p) && !LoadFrom(d).Unreadable?
    requires d.watch == Some(EncodeWatch(Record(e, p, lastSeq, lastHash)))
    ensures BootMembers(e, LoadFrom(d)) == p.reg
  {
    SnapshotSize(p.reg.tracked);
    SnapshotSize(p.reg.removed);
    RestoredExactly(e, LoadFrom(d), p.reg);
  }

  lemma WrittenRegistry(e: Env, t: Sys, p: Proc, k: nat)
    requires NoLoss.Inv(e, t) && Replay.Clean(p.reg) && t.proc == Some(p) && p.pc == Draining(true)
    requires 2 <= k <= 3
    ensures !LoadFrom(Saving(e, t, k).disk).Unreadable?
    ensures BootMembers(e, LoadFrom(Saving(e, t, k).disk)) ==
      if k == 3 || Lasting(t.disk, p) then p.reg else Seeded(NOBODY, e.seeds)
  {
    var st := Record(e, p, p.current, p.lastHash);
    var w, d := Saving(e, t, 2), Saving(e, t, k).disk;
    assert w.disk == t.disk.(watch := Some(EncodeWatch(st)));
    NoLoss.WatchReplaced(t.disk, st);
    NoLoss.CursorReplaced(w.disk, st);
    assert d == if k == 2 then w.disk else w.disk.(cursor := Some(EncodeCursor(st)));
    if k == 3 || Lasting(t.disk, p) {
      RecordRestores(e, d, p, p.current, p.lastHash);
    } else {
      NothingRestored(e, d, p, p.current, p.lastHash);
    }
  }

  lemma NothingRestored(e: Env, d: Disk, p: Proc, lastSeq: u32, lastHash: Hash)
    requires d.watch == Some(EncodeWatch(Record(e, p, lastSeq, lastHash))) && d.cursor.None?
    requires p.reg == NOBODY && p.gaps == []
    ensures BootMembers(e, LoadFrom(d)) == Seeded(NOBODY, e.seeds)
  {
    SnapshotSize({});
  }

  lemma UnwrittenRegistry(e: Env, t: Sys, k: nat)
    requires k <= 1 && t.proc.Some? && (k > 0 ==> t.proc.value.pc == Draining(true))
    ensures Saving(e, t, k).disk == t.disk
  {
  }

  /**
   The registry a drain leaves behind is the next process's if and only if the crash
   came after the first of the save's two writes, or the files said the same already.
   `k` counts how far the save got: not begun (as after a fatal answer), decided, first
   write done, both done. Between the two writes a deployment that never had a cursor
   and has nothing at all to restore boots from its seeds instead.
   */
  lemma DrainSurvivesIff(e: Env, init: Sys, trace: seq<Action>, acts: seq<Action>, k: nat)
    requires Initial(init) && DrainOnly(acts) && k <= 3
    requires Exec(e, init, trace).proc.Some?
    requires var t := Exec(e, Exec(e, init, trace), acts);
      t.proc.Some? && (k > 0 ==> t.proc.value.pc == Draining(true))
    ensures var s := Exec(e, init, trace); var t := Exec(e, s, acts); var reg := t.proc.value.reg;
            var u := Gone(Exec(e, t, [Flush, WriteWatch, WriteCursor][..k]));
      && BootEnabled(e, u) && BootEnabled(e, Gone(s))
      && (k < 2 ==> Booted(e, u).reg == Booted(e, Gone(s)).reg)
      && (Booted(e, u).reg == reg <==>
            if k < 2 then Booted(e, Gone(s)).reg == reg
            else k == 3 || Lasting(t.disk, t.proc.value) || Seeded(NOBODY, e.seeds) == reg)
  {
    var s := Exec(e, init, trace);
    var t := Exec(e, s, acts);
    InvAlways(e, init, trace);
    ExecConcat(e, init, trace, acts);
    InvAlways(e, init, trace + acts);
    NoLoss.InvAlways(e, init, trace + acts);
    DrainIsVolatile(e, s, acts);
    SavingIsARun(e, t, k);
    var save := [Flush, WriteWatch, WriteCursor][..k];
    ExecConcat(e, init, trace + acts, save);
    InvAlways(e, init, trace + acts + save);
    SavingStaysAlive(e, t, k);
    if k >= 2 {
      WrittenRegistry(e, t, t.proc.value, k);
    } else {
      UnwrittenRegistry(e, t, k);
    }
  }

  lemma SavingStaysAlive(e: Env, t: Sys, k: nat)
    requires k <= 3 && t.proc.Some? && (k > 0 ==> t.proc.value.pc == Draining(true))
    ensures Saving(e, t, k).proc.Some?
  {
  }

  lemma {:induction false} ExecConcat(e: Env, s: Sys, a: seq<Action>, b: seq<Action>)
    ensures Exec(e, s, a + b) == Exec(e, Exec(e, s, a), b)
    decreases |b|
  {
    if |b| == 0 {
      assert a + b == a;
    } else {
      var n := |b| - 1;
      assert (a + b)[..|a| + n] == a + b[..n];
      ExecConcat(e, s, a, b[..n]);
    }
  }
}
