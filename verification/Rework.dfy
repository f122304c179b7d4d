/**
 Bounded rework. A crash at the head of the loop costs at most 99 processed
 ledgers again, and the checkpoint distance never wraps.
 */
module Rework {
  import opened Base
  import opened StateStore
  import opened Machine
  import opened NoLoss

  /** The last ledger a crash now would not repeat: the durable cursor, or the one before the start. */
  function Safe(s: Sys, p: Proc): int {
    if LoadFrom(s.disk).Loaded? then LoadFrom(s.disk).state.lastSeq else p.lastCheckpoint
  }

  /** Everything up to ledger `last` could be repeated at the price of one checkpoint interval. */
  predicate Near(s: Sys, p: Proc, last: int) {
    p.lastCheckpoint <= last && p.lastCheckpoint <= Safe(s, p) && (last - p.lastCheckpoint < 100 || Safe(s, p) >= last)
  }

  /** A process with an adopted endpoint, rather than one still connecting for the first time. */
  predicate Started(p: Proc) {
    !p.pc.Connecting? && !(p.pc.Saving? && p.pc.next.Adopt? && p.pc.next.boot)
  }

  predicate Inv(s: Sys) {
    s.proc.Some? && Started(s.proc.value) ==>
      var p := s.proc.value;
      match p.pc
      case Saving(lastSeq, _, _, next) =>
        && (next.Adopt? ==> lastSeq >= p.current - 1 && Near(s, p, p.current - 1))
        && (next.Settle? ==> p.lastCheckpoint < p.current && p.lastCheckpoint <= Safe(s, p))
        && (next.Resume? ==> Near(s, p, p.current))
      case Draining(_) => Near(s, p, p.current)
      case Answering(_, _, _) => Near(s, p, p.current)
      case _ => Near(s, p, p.current - 1)
  }

  lemma ReachKeeps(e: Env, s: Sys, p: Proc, a: Action)
    requires NoLoss.Inv(e, s) && Inv(s) && s.proc == Some(p) && ProcEnabled(e, s, p, a) && a.Reach?
    ensures Inv(ProcStep(e, s, p, a))
  {
  }

  lemma WatchKeeps(e: Env, s: Sys, p: Proc, a: Action)
    requires NoLoss.Inv(e, s) && Inv(s) && s.proc == Some(p) && ProcEnabled(e, s, p, a) && a.WriteWatch?
    ensures Inv(ProcStep(e, s, p, a))
  {
    var st := Record(e, p, p.pc.lastSeq, p.pc.lastHash);
    assert WatchWritten(e, s, p).disk == s.disk.(watch := Some(EncodeWatch(st)));
    WatchReplaced(s.disk, st);
  }

  lemma CursorKeeps(e: Env, s: Sys, p: Proc, a: Action)
    requires NoLoss.Inv(e, s) && Inv(s) && s.proc == Some(p) && ProcEnabled(e, s, p, a) && a.WriteCursor?
    ensures Inv(ProcStep(e, s, p, a))
  {
    var st := Record(e, p, p.pc.lastSeq, p.pc.lastHash);
    CursorReplaced(s.disk, st);
  }

  lemma CheckKeeps(e: Env, s: Sys, p: Proc, a: Action)
    requires Inv(s) && s.proc == Some(p) && ProcEnabled(e, s, p, a) && a.Check?
    ensures Inv(ProcStep(e, s, p, a))
  {
  }

  /** The other steps move neither the files nor the checkpoint, nor go on to another ledger unsettled. */
  lemma PublishKeeps(e: Env, s: Sys, p: Proc, a: Action)
    requires Inv(s) && s.proc == Some(p) && ProcEnabled(e, s, p, a)
    requires a.Announce? || a.Deliver?
    ensures Inv(ProcStep(e, s, p, a))
  {
  }

  lemma StatesKeep(e: Env, s: Sys, p: Proc, a: Action)
    requires Inv(s) && s.proc == Some(p) && ProcEnabled(e, s, p, a)
    requires a.PublishState? || a.PublishSweep? || a.Answer?
    ensures Inv(ProcStep(e, s, p, a))
  {
  }

  lemma PlainKeeps(e: Env, s: Sys, p: Proc, a: Action)
    requires NoLoss.Inv(e, s) && Inv(s) && s.proc == Some(p) && ProcEnabled(e, s, p, a)
    requires !a.Reach? && !a.WriteWatch? && !a.WriteCursor? && !a.Check?
    requires !a.Announce? && !a.Deliver? && !a.PublishState? && !a.PublishSweep? && !a.Answer?
    ensures Inv(ProcStep(e, s, p, a))
  {
  }

  lemma StepKeeps(e: Env, s: Sys, a: Action)
    requires NoLoss.Inv(e, s) && Inv(s) && Enabled(e, s, a)
    ensures Inv(Step(e, s, a))
  {
    if !a.Boot? && !a.Tick? && !a.Crash? {
      var p := s.proc.value;
      if a.Reach? {
        ReachKeeps(e, s, p, a);
      } else if a.WriteWatch? {
        WatchKeeps(e, s, p, a);
      } else if a.WriteCursor? {
        CursorKeeps(e, s, p, a);
      } else if a.Check? {
        CheckKeeps(e, s, p, a);
      } else if a.Announce? || a.Deliver? {
        PublishKeeps(e, s, p, a);
      } else if a.PublishState? || a.PublishSweep? || a.Answer? {
        StatesKeep(e, s, p, a);
      } else {
        PlainKeeps(e, s, p, a);
      }
    }
  }

  lemma {:induction false} InvAlways(e: Env, s: Sys, trace: seq<Action>)
    requires Initial(s)
    ensures Inv(Exec(e, s, trace))
  {
    if |trace| > 0 {
      var before := Exec(e, s, trace[..|trace| - 1]);
      InvAlways(e, s, trace[..|trace| - 1]);
      NoLoss.InvAlways(e, s, trace[..|trace| - 1]);
      if Enabled(e, before, trace[|trace| - 1]) {
        StepKeeps(e, before, trace[|trace| - 1]);
      }
    }
  }

  /**
   At every loop head of every run at most 99 processed ledgers lie past the
   durable cursor (past the ledger before the start while there is none), and the
   uint32 distance to the last checkpoint is the true distance.
   */
  lemma ReworkBounded(e: Env, s: Sys, trace: seq<Action>, p: Proc)
    requires Initial(s) && Exec(e, s, trace).proc == Some(p)
    ensures p.pc.Head? ==> p.current - 1 - Safe(Exec(e, s, trace), p) <= 99
    ensures p.pc.Head? || p.pc.Checking? ==> Sub32(p.current, p.lastCheckpoint) == p.current - p.lastCheckpoint > 0
  {
    InvAlways(e, s, trace);
  }

  /**
   The rhythm is exact: at its checkpoint decision a process saves when it is at the
   tip, at the end of a bounded range, or a full hundred ledgers past its last
   checkpoint, and never before.
   */
  lemma CheckpointRhythm(e: Env, s: Sys, trace: seq<Action>, p: Proc)
    requires Initial(s) && Exec(e, s, trace).proc == Some(p) && p.pc.Checking?
    ensures Checked(e, p).pc.Saving? <==> !p.pc.catchingUp || IsFinal(e, p) || p.current - p.lastCheckpoint >= 100
    ensures Checked(e, p).pc.Saving? ==> Checked(e, p).pc == Saving(p.current, p.work.meta.hash, false, Settle)
  {
    InvAlways(e, s, trace);
  }
}
