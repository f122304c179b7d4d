/**
 Deferred states are conserved: within one process lifetime every escrow that was
 ever active is either still waiting to be fetched, or was fetched at its last
 activity's ledger or later.
 */
module Pending {
  import opened Base
  import opened Ids
  import opened Facts
  import opened Envelopes
  import opened Machine

  /** The ledger in hand has been processed but its escrows were not yet deferred or fetched. */
  predicate Undecided(pc: Pc) {
    pc.Delivering? || pc.Deciding?
  }

  ghost predicate Waiting(p: Proc, id: Id) {
    id in p.pending || (Undecided(p.pc) && id in Active(p.work.facts))
  }

  predicate FetchedSince(p: Proc, id: Id, ledger: u32) {
    id in p.fetchedAt && p.fetchedAt[id] >= ledger
  }

  ghost predicate Owed(p: Proc, id: Id) {
    id in p.activeAt && (Waiting(p, id) || FetchedSince(p, id, p.activeAt[id]))
  }

  /** No activity lies ahead of the loop. */
  ghost predicate Inv(p: Proc) {
    forall id :: id in p.activeAt ==> Owed(p, id) && p.activeAt[id] <= p.current
  }

  lemma FetchKeeps(e: Env, p: Proc)
    requires Inv(p) && FetchEnabled(e, p)
    ensures Inv(Fetched(e, p))
  {
    var q := Fetched(e, p);
    forall id | id in q.activeAt
      ensures Owed(q, id) && q.activeAt[id] <= q.current
    {
      if id in Active(q.work.facts) {
        assert q.activeAt[id] == p.current;
      } else {
        assert Owed(p, id);
      }
    }
  }

  lemma DeferKeeps(p: Proc)
    requires Inv(p) && p.pc.Deciding?
    ensures Inv(Deferred(p))
  {
    forall id | id in p.activeAt
      ensures Owed(Deferred(p), id)
    {
      assert Owed(p, id);
    }
  }

  lemma SnapshotKeeps(s: Sys, p: Proc, changes: seq<StateChange>)
    requires Inv(p) && p.pc.Deciding?
    ensures Inv(Snapped(s, p, changes))
  {
    var q := Snapped(s, p, changes);
    forall id | id in p.activeAt
      ensures Owed(q, id)
    {
      assert Owed(p, id);
      if Waiting(p, id) {
        assert q.fetchedAt[id] == p.current;
      }
    }
  }

  /** A step that leaves the sets alone, goes to no earlier ledger and stays on its side of the decision. */
  lemma PlainKeeps(p: Proc, q: Proc)
    requires Inv(p) && q.pending == p.pending && q.activeAt == p.activeAt && q.fetchedAt == p.fetchedAt
    requires q.current >= p.current && (Undecided(p.pc) ==> Undecided(q.pc) && q.work == p.work)
    ensures Inv(q)
  {
    forall id | id in q.activeAt
      ensures Owed(q, id) && q.activeAt[id] <= q.current
    {
      assert Owed(p, id);
    }
  }

  lemma AdoptKeeps(p: Proc, session: nat, start: u32, boot: bool)
    requires Inv(p) && !Undecided(p.pc) && (boot ==> p.activeAt == map[]) && (!boot ==> start >= p.current)
    ensures Inv(Adopted(p, session, start, boot))
  {
    var q := Adopted(p, session, start, boot);
    if !boot {
      PlainKeeps(p, q);
    }
  }

  /** A process that is still connecting has seen no activity; a recorded clamp never goes back. */
  ghost predicate ProcInv(p: Proc) {
    && Inv(p)
    && (p.pc.Connecting? ==> p.activeAt == map[])
    && (p.pc.Saving? && p.pc.next.Adopt? ==>
          if p.pc.next.boot then p.activeAt == map[] else p.pc.next.start >= p.current)
    && (!p.pc.Connecting? && !p.pc.Saving? && !p.pc.Announcing? && !p.pc.Head? ==> p.current < LAST_LEDGER)
    && (p.pc.Saving? && !p.pc.next.Adopt? ==> p.current < LAST_LEDGER)
  }

  lemma ReachKeeps(s: Sys, e: Env, p: Proc, session: nat, asked: u32, start: u32)
    requires ProcInv(p) && ReachEnabled(e, p, asked, start)
    ensures ProcInv(Reached(s, p, session, asked, start))
  {
    if p.pc.Connecting? {
      var q := p.(base := if s.hist.base.Some? then s.hist.base.value else asked);
      PlainKeeps(p, q);
      AdoptKeeps(q, session, start, true);
    } else {
      AdoptKeeps(p, session, start, false);
    }
    if start != asked {
      PlainKeeps(p, Reached(s, p, session, asked, start));
    }
  }

  lemma ContinueKeeps(p: Proc)
    requires ProcInv(p) && p.pc.Saving?
    ensures ProcInv(Continued(p, p.pc.next))
  {
    match p.pc.next {
      case Adopt(session, start, boot) => AdoptKeeps(p, session, start, boot);
      case _ => PlainKeeps(p, Continued(p, p.pc.next));
    }
  }

  ghost predicate SysInv(s: Sys) {
    s.proc.Some? ==> ProcInv(s.proc.value)
  }

  lemma WorkKeeps(e: Env, s: Sys, p: Proc, a: Action)
    requires ProcInv(p) && s.proc == Some(p) && ProcEnabled(e, s, p, a)
    requires a.Reach? || a.WriteWatch? || a.WriteCursor? || a.Fetch? || a.Defer? || a.Snapshot?
    ensures SysInv(ProcStep(e, s, p, a))
  {
    match a {
      case Reach(session, asked, start) => ReachKeeps(s, e, p, session, asked, start);
      case WriteCursor => ContinueKeeps(p);
      case Fetch => FetchKeeps(e, p);
      case Defer => DeferKeeps(p);
      case Snapshot(changes) => SnapshotKeeps(s, p, changes);
      case WriteWatch => PlainKeeps(p, ProcStep(e, s, p, a).proc.value);
    }
  }

  lemma PublishKeeps(e: Env, s: Sys, p: Proc, a: Action)
    requires ProcInv(p) && s.proc == Some(p) && ProcEnabled(e, s, p, a)
    requires a.Announce? || a.Deliver? || a.PublishState? || a.PublishSweep? || a.Answer?
    ensures SysInv(ProcStep(e, s, p, a))
  {
    PlainKeeps(p, ProcStep(e, s, p, a).proc.value);
  }

  lemma OtherKeeps(e: Env, s: Sys, p: Proc, a: Action)
    requires ProcInv(p) && s.proc == Some(p) && ProcEnabled(e, s, p, a)
    requires a.SweepSkip? || a.Sweep? || a.Check? || a.Execute? || a.Flush? || a.Advance?
    ensures SysInv(ProcStep(e, s, p, a))
  {
    PlainKeeps(p, ProcStep(e, s, p, a).proc.value);
  }

  lemma StepKeeps(e: Env, s: Sys, a: Action)
    requires SysInv(s) && Enabled(e, s, a)
    ensures SysInv(Step(e, s, a))
  {
    if !a.Boot? && !a.Tick? && !a.Crash? {
      var p := s.proc.value;
      if a.Reach? || a.WriteWatch? || a.WriteCursor? || a.Fetch? || a.Defer? || a.Snapshot? {
        WorkKeeps(e, s, p, a);
      } else if a.Announce? || a.Deliver? || a.PublishState? || a.PublishSweep? || a.Answer? {
        PublishKeeps(e, s, p, a);
      } else {
        OtherKeeps(e, s, p, a);
      }
    }
  }

  lemma {:induction false} InvAlways(e: Env, s: Sys, trace: seq<Action>)
    requires Initial(s)
    ensures SysInv(Exec(e, s, trace))
  {
    if |trace| > 0 {
      var before := Exec(e, s, trace[..|trace| - 1]);
      InvAlways(e, s, trace[..|trace| - 1]);
      if Enabled(e, before, trace[|trace| - 1]) {
        StepKeeps(e, before, trace[|trace| - 1]);
      }
    }
  }

  /**
   Whenever the loop is at its head, every escrow active since this process began
   is in the deferred set or was fetched at its last activity's ledger or later.
   */
  lemma DeferredStatesConserved(e: Env, s: Sys, trace: seq<Action>, p: Proc, id: Id)
    requires Initial(s) && Exec(e, s, trace).proc == Some(p) && p.pc.Head? && id in p.activeAt
    ensures id in p.pending || FetchedSince(p, id, p.activeAt[id])
  {
    InvAlways(e, s, trace);
    assert Owed(p, id);
  }
}
