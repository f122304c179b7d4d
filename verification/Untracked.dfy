/**
 Whom a snapshot asks about. An honest node makes the detector report an escrow gone
 although it is on chain in one case only: the registry does not track it. A snapshot
 asks about such an escrow only if a command removed it while it was deferred.
 */
module Untracked {
  import opened Base
  import opened Ids
  import opened Registry
  import opened Facts
  import opened Machine
  import Control
  import Detector
  import DetectorGuarantees
  import DetectorTheorems

  /** After i actions a process is alive and defers id. */
  ghost predicate DeferredAt(e: Env, s: Sys, trace: seq<Action>, i: nat, id: Id)
    requires i <= |trace|
  {
    var t := Exec(e, s, trace[..i]);
    t.proc.Some? && id in t.proc.value.pending
  }

  /** The next action removes id by command while it is deferred, and deferred it is ever after. */
  ghost predicate RemovedAt(e: Env, s: Sys, trace: seq<Action>, i: nat, id: Id) {
    && i < |trace| && trace[i].Execute? && trace[i].cmd == Control.RemoveEscrow(id)
    && Enabled(e, Exec(e, s, trace[..i]), trace[i])
    && forall j :: i <= j <= |trace| ==> DeferredAt(e, s, trace, j, id)
  }

  ghost predicate RemovedWhileDeferred(e: Env, s: Sys, trace: seq<Action>, id: Id) {
    exists i :: RemovedAt(e, s, trace, i, id)
  }

  ghost predicate Tracked(m: Members, id: Id) {
    id != "" && id in m.tracked
  }

  /** Deferred escrows are tracked or were removed since; those of the facts in hand are tracked. */
  ghost predicate Inv(e: Env, s: Sys, trace: seq<Action>, p: Proc) {
    && (forall id :: id in p.pending ==> id != "" && (id in p.reg.tracked || RemovedWhileDeferred(e, s, trace, id)))
    && (p.pc.Delivering? || p.pc.Deciding? ==> InHandTracked(p))
  }

  ghost predicate InHandTracked(p: Proc) {
    forall id :: id in Active(p.work.facts) ==> Tracked(p.reg, id)
  }

  /** As long as it stays deferred. */
  lemma StillRemoved(e: Env, s: Sys, trace: seq<Action>, id: Id)
    requires |trace| > 0 && RemovedWhileDeferred(e, s, trace[..|trace| - 1], id)
    requires DeferredAt(e, s, trace, |trace|, id)
    ensures RemovedWhileDeferred(e, s, trace, id)
  {
    var n := |trace| - 1;
    var i: nat :| RemovedAt(e, s, trace[..n], i, id);
    assert trace[..n][..i] == trace[..i];
    forall j | i <= j <= |trace|
      ensures DeferredAt(e, s, trace, j, id)
    {
      if j <= n {
        assert trace[..n][..j] == trace[..j];
        assert DeferredAt(e, s, trace[..n], j, id);
      }
    }
    assert RemovedAt(e, s, trace, i, id);
  }

  /** Detection only yields facts about tracked escrows. */
  lemma FactsAreTracked(e: Env, p: Proc)
    requires Derivation(e, p).Some?
    ensures InHandTracked(Fetched(e, p))
  {
    var txs, closedAt := Served(e, p).txs, Served(e, p).closedAt;
    var after := Discovered(p.reg, txs, e.approved).value.tracked;
    forall f | f in Derivation(e, p).value.facts
      ensures Known(after, f.escrow)
    {
      DetectedMakes(txs, p.current, closedAt, after, f);
      var tx: Tx, k: nat :| tx in txs && Makes(tx, p.current, closedAt, after, k, f);
    }
  }

  /** A step that neither fetches, defers, snapshots nor executes leaves escrows where they are. */
  lemma Untouched(e: Env, s: Sys, p: Proc, a: Action)
    requires s.proc == Some(p) && ProcEnabled(e, s, p, a)
    requires !a.Fetch? && !a.Defer? && !a.Snapshot? && !a.Execute?
    ensures var t := ProcStep(e, s, p, a);
      && t.proc.Some? && t.proc.value.pending == p.pending && t.proc.value.reg == p.reg
      && (t.proc.value.pc.Delivering? || t.proc.value.pc.Deciding? ==> p.pc.Delivering?)
      && t.proc.value.work == p.work
  {
  }

  /** What a step does to the deferred escrows: it keeps, adds tracked ones, or lets go of all of them. */
  ghost predicate Carries(p: Proc, q: Proc) {
    && (forall id :: id in q.pending ==> id in p.pending || Tracked(q.reg, id))
    && p.reg.tracked <= q.reg.tracked
    && (q.pc.Delivering? || q.pc.Deciding? ==> InHandTracked(q))
  }

  lemma StepCarries(e: Env, s: Sys, p: Proc, a: Action)
    requires s.proc == Some(p) && ProcEnabled(e, s, p, a) && !a.Execute?
    requires p.pc.Delivering? || p.pc.Deciding? ==> InHandTracked(p)
    ensures ProcStep(e, s, p, a).proc.Some? && Carries(p, ProcStep(e, s, p, a).proc.value)
  {
    if a.Fetch? {
      FactsAreTracked(e, p);
      DiscoveryMonotone(p.reg, p.reg, Served(e, p).txs, e.approved);
    } else if !a.Defer? && !a.Snapshot? {
      Untouched(e, s, p, a);
    }
  }

  lemma CarriedInv(e: Env, s: Sys, trace: seq<Action>, p: Proc, q: Proc)
    requires |trace| > 0 && Inv(e, s, trace[..|trace| - 1], p) && Carries(p, q)
    requires Exec(e, s, trace).proc == Some(q)
    ensures Inv(e, s, trace, q)
  {
    forall id | id in q.pending
      ensures id != "" && (id in q.reg.tracked || RemovedWhileDeferred(e, s, trace, id))
    {
      if id !in q.reg.tracked {
        assert trace[..|trace|] == trace;
        StillRemoved(e, s, trace, id);
      }
    }
  }

  lemma ExecutedInv(e: Env, s: Sys, trace: seq<Action>, p: Proc, q: Proc)
    requires |trace| > 0 && Inv(e, s, trace[..|trace| - 1], p)
    requires var n := |trace| - 1;
      && Exec(e, s, trace[..n]).proc == Some(p) && trace[n].Execute? && Enabled(e, Exec(e, s, trace[..n]), trace[n])
      && Exec(e, s, trace).proc == Some(q)
    requires q.pending == p.pending && q.pc.Answering?
    requires q.reg == Control.Execute(p.reg, trace[|trace| - 1].cmd).members
    ensures Inv(e, s, trace, q)
  {
    var n := |trace| - 1;
    assert trace[..|trace|] == trace;
    forall id | id in q.pending
      ensures id != "" && (id in q.reg.tracked || RemovedWhileDeferred(e, s, trace, id))
    {
      if id in p.reg.tracked && id !in q.reg.tracked {
        assert trace[n].cmd == Control.RemoveEscrow(id);
        assert RemovedAt(e, s, trace, n, id);
      } else if id !in p.reg.tracked {
        StillRemoved(e, s, trace, id);
      }
    }
  }

  lemma {:induction false} InvAlways(e: Env, s: Sys, trace: seq<Action>)
    requires Initial(s)
    ensures Exec(e, s, trace).proc.Some? ==> Inv(e, s, trace, Exec(e, s, trace).proc.value)
  {
    if |trace| > 0 {
      var n := |trace| - 1;
      InvAlways(e, s, trace[..n]);
      var before, a := Exec(e, s, trace[..n]), trace[n];
      if !Enabled(e, before, a) {
        if before.proc.Some? {
          SameProc(e, s, trace, before.proc.value);
        }
      } else if before.proc.Some? && !a.Crash? && !a.Tick? {
        var p, q := before.proc.value, Step(e, before, a).proc;
        if a.Execute? {
          ExecutedInv(e, s, trace, p, q.value);
        } else {
          StepCarries(e, before, p, a);
          CarriedInv(e, s, trace, p, q.value);
        }
      } else if a.Tick? && before.proc.Some? {
        SameProc(e, s, trace, before.proc.value);
      }
    }
  }

  lemma SameProc(e: Env, s: Sys, trace: seq<Action>, p: Proc)
    requires |trace| > 0 && Inv(e, s, trace[..|trace| - 1], p) && Exec(e, s, trace).proc == Some(p)
    ensures Inv(e, s, trace, p)
  {
    CarriedInv(e, s, trace, p, p);
  }

  /**
   In every run: whoever a snapshot asks about is tracked, unless a command removed it
   while it was deferred.
   */
  lemma AskedIsTracked(e: Env, s: Sys, trace: seq<Action>, p: Proc, id: Id)
    requires Initial(s) && Exec(e, s, trace).proc == Some(p) && p.pc.Deciding? && id in Asking(p)
    ensures Tracked(p.reg, id) || (id in p.pending && RemovedWhileDeferred(e, s, trace, id))
  {
    InvAlways(e, s, trace);
  }

  /**
   So over honest nodes those are the only ones a snapshot reports gone while they are
   on chain; and it does report them, unless the guard withholds the batch.
   */
  lemma FalselyGoneWasRemoved(e: Env, s: Sys, trace: seq<Action>, p: Proc, m: Detector.Memory, rpc: Detector.Rpc,
                              isAddress: string -> bool, q: Detector.Request, chain: DetectorTheorems.Chain, id: Id)
    requires Initial(s) && Exec(e, s, trace).proc == Some(p) && p.pc.Deciding?
    requires q.tracked == p.reg.tracked && Distinct(q.ids) && Elements(q.ids) == Asking(p)
    requires DetectorTheorems.Honest(rpc, chain) && DetectorTheorems.LearnedOk(m.learned, isAddress)
    requires DetectorTheorems.OnChain(chain, id)
    ensures var f := Detector.FetchOf(m, rpc, isAddress, q);
      f.changes.Some? ==>
        var gone := id in DetectorGuarantees.RemovedIn(f.changes.value);
        && (gone ==> RemovedWhileDeferred(e, s, trace, id))
        && (gone <==> id in Asking(p) && !Tracked(p.reg, id) && isAddress(id)
                      && !DetectorTheorems.Suppressed(isAddress, q, chain))
  {
    DetectorGuarantees.RemovedExactlyWhenGone(m, rpc, isAddress, q, chain, id);
    assert id in q.ids <==> id in Elements(q.ids);
    if id in q.ids {
      AskedIsTracked(e, s, trace, p, id);
    }
  }
}
