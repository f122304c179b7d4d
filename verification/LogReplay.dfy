/**
 What the consumer sees of a crash: nothing. Message by message, what an uninterrupted
 run, or any other run, puts on the wire is on the wire of a run that crashed too.
 */
module LogReplay {
  import opened Base
  import opened Ids
  import opened Facts
  import opened Envelopes
  import opened Machine
  import opened NoLoss
  import opened Replay
  import opened CrashReplay
  import opened Identity

  // ---- A crash-free run delivers what it derived ---------------------------------------------------

  ghost predicate Derived(e: Env, derived: map<u32, Work>, env: Envelope) {
    exists n: u32, f: Fact ::
      n in derived && f in derived[n].facts && f.ledger == n && env == FromEscrowEvent(e.name, f)
  }

  ghost predicate AllDerived(e: Env, h: History) {
    forall env :: env in h.log && IsFact(env) ==> Derived(e, h.derived, env)
  }

  /** Without a crash every ledger is processed once at most: those still ahead were not derived yet. */
  ghost predicate Once(s: Sys, first: u32) {
    && (forall n: u32 :: n in s.hist.derived ==> first <= n)
    && (s.proc.None? || s.proc.value.pc.Connecting? ==> s.hist.derived == map[])
    && (s.proc.Some? ==> forall n: u32 :: n in s.hist.derived ==> n < NextLive(s.proc.value))
  }

  lemma FetchOnce(e: Env, s: Sys, p: Proc, first: u32)
    requires AllDerived(e, s.hist) && Once(s, first) && s.proc == Some(p) && FetchEnabled(e, p) && first <= p.current
    ensures AllDerived(e, FetchStep(e, s, p).hist) && Once(FetchStep(e, s, p), first)
  {
    var t := FetchStep(e, s, p);
    assert p.current !in s.hist.derived;
    forall env | env in t.hist.log && IsFact(env)
      ensures Derived(e, t.hist.derived, env)
    {
      var n: u32, f: Fact :|
        n in s.hist.derived && f in s.hist.derived[n].facts && f.ledger == n && env == FromEscrowEvent(e.name, f);
      assert t.hist.derived[n] == s.hist.derived[n];
    }
  }

  lemma GenuineLedger(e: Env, n: u32, w: Work, f: Fact)
    requires Genuine(e, n, w) && f in w.facts
    ensures f.ledger == n
  {
    var after := Discovered(w.before, w.meta.txs, e.approved).value;
    var _, _ := Origin(w.meta.txs, n, w.meta.closedAt, after.tracked, f);
  }

  lemma DeliverDerived(e: Env, s: Sys, p: Proc)
    requires NoLoss.Inv(e, s) && AllDerived(e, s.hist) && s.proc == Some(p) && p.pc.Delivering?
    ensures AllDerived(e, DeliverStep(e, s, p).hist)
  {
    if p.pc.i < |p.work.facts| {
      var n, f := p.current, p.work.facts[p.pc.i];
      GenuineLedger(e, n, p.work, f);
      assert n in s.hist.derived && f in s.hist.derived[n].facts;
      assert Derived(e, s.hist.derived, FromEscrowEvent(e.name, f));
    }
  }

  lemma OthersDerived(e: Env, s: Sys, p: Proc, a: Action)
    requires AllDerived(e, s.hist) && s.proc == Some(p) && ProcEnabled(e, s, p, a)
    requires a.Announce? || a.PublishState? || a.PublishSweep? || a.Answer?
    ensures AllDerived(e, ProcStep(e, s, p, a).hist)
  {
  }

  /** Nothing but a fetch derives, and nothing but a fetch and a new endpoint moves the loop on. */
  lemma ReachOnce(e: Env, s: Sys, p: Proc, a: Action, first: u32)
    requires Once(s, first) && s.proc == Some(p) && ProcEnabled(e, s, p, a) && a.Reach?
    ensures Once(ProcStep(e, s, p, a), first)
  {
    var q := Reached(s, p, a.session, a.asked, a.start);
    if a.start == a.asked {
      AdoptedPoint(p, a.session, a.start, p.pc.Connecting?);
    }
    assert NextLive(q) == a.start;
  }

  lemma SaveOnce(e: Env, s: Sys, p: Proc, a: Action, first: u32)
    requires NoLoss.Inv(e, s) && Once(s, first) && s.proc == Some(p) && ProcEnabled(e, s, p, a)
    requires a.WriteWatch? || a.WriteCursor?
    ensures Once(ProcStep(e, s, p, a), first)
  {
    if a.WriteCursor? {
      ContinuedNext(e, s, p);
    }
  }

  lemma PublishOnce(e: Env, s: Sys, p: Proc, a: Action, first: u32)
    requires Once(s, first) && s.proc == Some(p) && ProcEnabled(e, s, p, a)
    requires a.Announce? || a.Deliver? || a.PublishState? || a.PublishSweep? || a.Answer?
    ensures Once(ProcStep(e, s, p, a), first)
  {
  }

  lemma OtherOnce(e: Env, s: Sys, p: Proc, a: Action, first: u32)
    requires NoLoss.Inv(e, s) && Once(s, first) && s.proc == Some(p) && ProcEnabled(e, s, p, a)
    requires a.Defer? || a.Snapshot? || a.SweepSkip? || a.Sweep? || a.Check? || a.Execute? || a.Flush? || a.Advance?
    ensures Once(ProcStep(e, s, p, a), first)
  {
  }

  lemma StepOnce(e: Env, s: Sys, a: Action, first: u32)
    requires NoLoss.Inv(e, s) && Once(s, first) && AllDerived(e, s.hist) && Enabled(e, s, a) && !a.Crash?
    requires BaseIs(s, first)
    ensures Once(Step(e, s, a), first)
  {
    if a.Fetch? {
      FetchOnce(e, s, s.proc.value, first);
    } else if a.Reach? {
      ReachOnce(e, s, s.proc.value, a, first);
    } else if a.WriteWatch? || a.WriteCursor? {
      SaveOnce(e, s, s.proc.value, a, first);
    } else if a.Announce? || a.Deliver? || a.PublishState? || a.PublishSweep? || a.Answer? {
      PublishOnce(e, s, s.proc.value, a, first);
    } else if !a.Boot? && !a.Tick? {
      OtherOnce(e, s, s.proc.value, a, first);
    }
  }

  lemma StepDerived(e: Env, s: Sys, a: Action, first: u32)
    requires NoLoss.Inv(e, s) && Once(s, first) && AllDerived(e, s.hist) && Enabled(e, s, a) && BaseIs(s, first)
    ensures AllDerived(e, Step(e, s, a).hist)
  {
    if a.Fetch? {
      FetchOnce(e, s, s.proc.value, first);
    } else if a.Deliver? {
      DeliverDerived(e, s, s.proc.value);
    } else if a.Announce? || a.PublishState? || a.PublishSweep? || a.Answer? {
      OthersDerived(e, s, s.proc.value, a);
    } else {
      OnlyPublishingSpeaks(e, s, a);
      OnlyFetchingDerives(e, s, a);
    }
  }

  lemma OnlyFetchingDerives(e: Env, s: Sys, a: Action)
    requires Enabled(e, s, a) && !a.Fetch?
    ensures Step(e, s, a).hist.derived == s.hist.derived
  {
  }

  /** In a crash-free run each event or deposit on the wire is a fact derived from its own ledger. */
  lemma {:induction false} CrashFreeDerived(e: Env, s: Sys, trace: seq<Action>)
    requires Initial(s) && First(e, s) != 0 && CrashFree(trace)
    ensures var t := Exec(e, s, trace); AllDerived(e, t.hist) && Once(t, First(e, s))
  {
    if |trace| > 0 {
      var n := |trace| - 1;
      CrashFreeDerived(e, s, trace[..n]);
      NoLoss.InvAlways(e, s, trace[..n]);
      BaseAlways(e, s, trace[..n]);
      if Enabled(e, Exec(e, s, trace[..n]), trace[n]) {
        StepOnce(e, Exec(e, s, trace[..n]), trace[n], First(e, s));
        StepDerived(e, Exec(e, s, trace[..n]), trace[n], First(e, s));
      }
    }
  }

  // ---- Wire against wire ---------------------------------------------------------------------------------

  /** The same message: one id, and the same event of the same transaction of the same ledger. */
  predicate SameMessage(x: Envelope, y: Envelope) {
    && IsFact(x) && IsFact(y) && x.messageID == y.messageID && x.network == y.network
    && x.raw == y.raw && x.ledgerSeq == y.ledgerSeq && x.txHash == y.txHash && x.eventIndex == y.eventIndex
  }

  /**
   Two runs of one deployment under one history, without registry commands: every
   event or deposit the crash-free one put on the wire, for a ledger up to the crashed
   one's durable cursor, the crashed one put there too. The crash-free run is taken
   over ledgers the other one did not skip.
   */
  lemma CrashesLeaveNoTrace(e: Env, s: Sys, free: seq<Action>, crashed: seq<Action>, x: Envelope) returns (y: Envelope)
    requires Initial(s) && OneHistory(e) && First(e, s) != 0
    requires Quiet(free) && CrashFree(free) && Quiet(crashed)
    requires var a, b := Exec(e, s, free), Exec(e, s, crashed);
      && x in a.hist.log && IsFact(x) && x.ledgerSeq <= CursorOf(b.disk)
      && Avoids(a.hist.derived, GapsOf(b.disk), x.ledgerSeq + 1)
    ensures y in Exec(e, s, crashed).hist.log && SameMessage(x, y)
  {
    var a := Exec(e, s, free);
    CrashFreeDerived(e, s, free);
    assert Derived(e, a.hist.derived, x);
    var n: u32, f: Fact :|
      n in a.hist.derived && f in a.hist.derived[n].facts && f.ledger == n && x == FromEscrowEvent(e.name, f);
    var g := CrashReplayMissesNothing(e, s, free, crashed, n, f);
    y := FromEscrowEvent(e.name, g);
  }

  /** As long as no gap is recorded nothing more is needed: up to the cursor the crashed run's wire has it all. */
  lemma NoGapsNoDifference(e: Env, s: Sys, free: seq<Action>, crashed: seq<Action>, x: Envelope) returns (y: Envelope)
    requires Initial(s) && OneHistory(e) && First(e, s) != 0
    requires Quiet(free) && CrashFree(free) && Quiet(crashed) && GapsOf(Exec(e, s, crashed).disk) == []
    requires x in Exec(e, s, free).hist.log && IsFact(x) && x.ledgerSeq <= CursorOf(Exec(e, s, crashed).disk)
    ensures y in Exec(e, s, crashed).hist.log && SameMessage(x, y)
  {
    y := CrashesLeaveNoTrace(e, s, free, crashed, x);
  }

  /**
   What any run put on the wire, whatever crashed, was commanded or was skipped in it,
   about an escrow that was due in a ledger the crashed run did not skip, the crashed
   one put there too.
   */
  lemma OtherRunsAddNothing(e: Env, s: Sys, t: Sys, other: seq<Action>, crashed: seq<Action>, x: Envelope)
      returns (y: Envelope)
    requires Initial(s) && Initial(t) && OneHistory(e) && First(e, s) != 0 && Quiet(crashed)
    requires x in Exec(e, t, other).hist.log && IsFact(x)
    requires var b := Exec(e, s, crashed);
      && First(e, s) <= x.ledgerSeq <= CursorOf(b.disk) && !Skipped(GapsOf(b.disk), x.ledgerSeq)
      && DueAt(e, BasisOf(e, s), GapsOf(b.disk), x.ledgerSeq, x.contractID)
    ensures y in Exec(e, s, crashed).hist.log && SameMessage(x, y)
  {
    AlwaysSourced(e, t, other);
    var n: u32, tracked: set<Id>, f: Fact :| Identity.FactOf(e, n, tracked, f) && x == FromEscrowEvent(e.name, f);
    var _, _ := Origin(e.serve(0, n).txs, n, e.serve(0, n).closedAt, tracked, f);
    var g := DueEscrowsMissNothing(e, s, crashed, n, tracked, f);
    y := FromEscrowEvent(e.name, g);
  }
}
