/**
 State stamps never regress. Over a whole run, across crashes and restarts, the
 activity and sweep snapshots carry nondecreasing ledgers, and none is taken for
 a ledger already older than the catch-up age when that was decided.
 */
module Stamps {
  import opened Base
  import opened StateStore
  import opened Envelopes
  import opened Catchup
  import opened Machine
  import NoLoss

  /** Close times are the chain's: the same in every session and never decreasing. */
  ghost predicate Punctual(e: Env) {
    forall k: nat, j: nat, m: u32, n: u32 :: m <= n ==> e.serve(k, m).closedAt <= e.serve(j, n).closedAt
  }

  /** Ledger n is one the loop would defer now. */
  predicate Old(e: Env, now: int, n: u32) {
    CatchingUp(now, e.serve(0, n).closedAt)
  }

  ghost predicate OldBetween(e: Env, now: int, above: int, below: int) {
    forall n: u32 :: above < n < below ==> Old(e, now, n)
  }

  /** The ledger a restart would resume after. */
  function Floor(e: Env, d: Disk): int {
    if LoadFrom(d).Loaded? then LoadFrom(d).state.lastSeq else e.start - 1
  }

  /** The newest stamp, -1 before the first. */
  function Top(stamps: seq<Stamp>): int {
    if |stamps| == 0 then -1 else stamps[|stamps| - 1].ledger
  }

  ghost predicate Ordered(stamps: seq<Stamp>) {
    forall i, j :: 0 <= i < j < |stamps| ==> stamps[i].ledger <= stamps[j].ledger
  }

  ghost predicate Fresh(stamps: seq<Stamp>) {
    forall i :: 0 <= i < |stamps| ==> stamps[i].decidedAt - stamps[i].closedAt <= 1_200_000_000_000
  }

  // ---- The invariant ------------------------------------------------------------------------------

  predicate InHand(pc: Pc) {
    !pc.Connecting? && !pc.Announcing? && !pc.Head? && !(pc.Saving? && pc.next.Adopt?)
  }

  predicate Unsettled(pc: Pc) {
    pc.Delivering? || pc.Deciding? || pc.Snapshots? || pc.Sweeping? || pc.SweepSnapshots? || pc.Checking?
  }

  /** Where the ledger in hand stands: past the cursor until settled, and settled as old or as saved. */
  ghost predicate PointOk(e: Env, s: Sys, p: Proc) {
    && (InHand(p.pc) ==> p.work.meta == e.serve(p.session, p.current))
    && (Unsettled(p.pc) ==> Floor(e, s.disk) < p.current)
    && match p.pc
       case Sweeping(catching) => catching ==> CatchingUp(s.now, p.work.meta.closedAt)
       case Checking(catching) => catching ==> CatchingUp(s.now, p.work.meta.closedAt)
       case Snapshots(_, _, at) =>
         Top(s.hist.stamps) <= p.current && at - p.work.meta.closedAt <= 1_200_000_000_000
       case SweepSnapshots(_, _, at) =>
         Top(s.hist.stamps) <= p.current && at - p.work.meta.closedAt <= 1_200_000_000_000
       case Saving(lastSeq, _, _, next) => next.Resume? ==> SettledOk(e, s, p)
       case Draining(_) => SettledOk(e, s, p)
       case Answering(_, _, _) => SettledOk(e, s, p)
       case _ => true
  }

  predicate SettledOk(e: Env, s: Sys, p: Proc) {
    Floor(e, s.disk) >= p.current || Old(e, s.now, p.current)
  }

  /** What lies between the cursor and the newest stamp, or the ledger in hand, was and stays deferred. */
  ghost predicate Inv(e: Env, s: Sys) {
    && Ordered(s.hist.stamps) && Fresh(s.hist.stamps)
    && OldBetween(e, s.now, Floor(e, s.disk), Top(s.hist.stamps))
    && (s.proc.Some? ==>
          OldBetween(e, s.now, Floor(e, s.disk), s.proc.value.current) && PointOk(e, s, s.proc.value))
  }

  ghost predicate Hypotheses(e: Env, s: Sys) {
    && Punctual(e) && NoLoss.Inv(e, s)
    && (s.hist.base.None? ==> e.start > 0 && NoLoss.BaseIs(s, e.start))
  }

  // ---- Every step keeps it --------------------------------------------------------------------------

  lemma SessionsAgree(e: Env, p: Proc, now: int)
    requires Punctual(e) && p.work.meta == e.serve(p.session, p.current)
    ensures CatchingUp(now, p.work.meta.closedAt) <==> Old(e, now, p.current)
  {
    assert e.serve(p.session, p.current).closedAt <= e.serve(0, p.current).closedAt;
    assert e.serve(0, p.current).closedAt <= e.serve(p.session, p.current).closedAt;
  }

  lemma BootKeeps(e: Env, s: Sys)
    requires Hypotheses(e, s) && Inv(e, s) && BootEnabled(e, s)
    ensures Inv(e, Run(s, Booted(e, s)))
  {
  }

  lemma TickKeeps(e: Env, s: Sys, d: int)
    requires Inv(e, s) && d >= 0
    ensures Inv(e, s.(now := s.now + d))
  {
    StillOld(e, s.now, s.now + d, Floor(e, s.disk), Top(s.hist.stamps));
    if s.proc.Some? {
      StillOld(e, s.now, s.now + d, Floor(e, s.disk), s.proc.value.current);
    }
  }

  lemma StillOld(e: Env, now: int, later: int, above: int, below: int)
    requires OldBetween(e, now, above, below) && later >= now
    ensures OldBetween(e, later, above, below)
  {
    forall n: u32 | above < n < below
      ensures Old(e, later, n)
    {
      assert Old(e, now, n);
    }
  }

  lemma ReachKeeps(e: Env, s: Sys, p: Proc, a: Action)
    requires Hypotheses(e, s) && Inv(e, s) && s.proc == Some(p) && ProcEnabled(e, s, p, a) && a.Reach?
    ensures Inv(e, ProcStep(e, s, p, a))
  {
    if a.start == a.asked {
      NoLoss.AdoptedPoint(p, a.session, a.start, p.pc.Connecting?);
      assert ProcStep(e, s, p, a).proc.value.current == (if p.pc.Connecting? then p.from else p.current);
    }
  }

  lemma WatchKeeps(e: Env, s: Sys, p: Proc, a: Action)
    requires Hypotheses(e, s) && Inv(e, s) && s.proc == Some(p) && ProcEnabled(e, s, p, a) && a.WriteWatch?
    ensures Inv(e, ProcStep(e, s, p, a))
  {
    var st := Record(e, p, p.pc.lastSeq, p.pc.lastHash);
    assert WatchWritten(e, s, p).disk == s.disk.(watch := Some(EncodeWatch(st)));
    NoLoss.WatchReplaced(s.disk, st);
  }

  lemma CursorKeeps(e: Env, s: Sys, p: Proc, a: Action)
    requires Hypotheses(e, s) && Inv(e, s) && s.proc == Some(p) && ProcEnabled(e, s, p, a) && a.WriteCursor?
    ensures Inv(e, ProcStep(e, s, p, a))
  {
    var st := Record(e, p, p.pc.lastSeq, p.pc.lastHash);
    NoLoss.CursorReplaced(s.disk, st);
    NoLoss.ContinuedPoint(e, s, p, Continued(p, p.pc.next));
    assert Floor(e, s.disk) <= p.pc.lastSeq;
  }

  /** A snapshot is decided only for a ledger that is not old, hence not below the newest stamp. */
  lemma DecideKeeps(e: Env, s: Sys, p: Proc, a: Action)
    requires Hypotheses(e, s) && Inv(e, s) && s.proc == Some(p) && ProcEnabled(e, s, p, a)
    requires a.Defer? || a.Snapshot? || a.SweepSkip? || a.Sweep?
    ensures Inv(e, ProcStep(e, s, p, a))
  {
    SessionsAgree(e, p, s.now);
  }

  lemma CheckKeeps(e: Env, s: Sys, p: Proc, a: Action)
    requires Hypotheses(e, s) && Inv(e, s) && s.proc == Some(p) && ProcEnabled(e, s, p, a) && a.Check?
    ensures Inv(e, ProcStep(e, s, p, a))
  {
    SessionsAgree(e, p, s.now);
  }

  lemma AdvanceKeeps(e: Env, s: Sys, p: Proc, a: Action)
    requires Hypotheses(e, s) && Inv(e, s) && s.proc == Some(p) && ProcEnabled(e, s, p, a) && a.Advance?
    ensures Inv(e, ProcStep(e, s, p, a))
  {
  }

  lemma FetchKeeps(e: Env, s: Sys, p: Proc, a: Action)
    requires Hypotheses(e, s) && Inv(e, s) && s.proc == Some(p) && ProcEnabled(e, s, p, a) && a.Fetch?
    ensures Inv(e, ProcStep(e, s, p, a))
  {
    assert s.hist.base.None? ==> p.base == e.start;
  }

  lemma StateKeeps(e: Env, s: Sys, p: Proc)
    requires Inv(e, s) && s.proc == Some(p) && ProcEnabled(e, s, p, PublishState)
    ensures Inv(e, StateStep(e, s, p))
  {
  }

  lemma SweepKeeps(e: Env, s: Sys, p: Proc)
    requires Inv(e, s) && s.proc == Some(p) && ProcEnabled(e, s, p, PublishSweep)
    ensures Inv(e, SweepStep(e, s, p))
  {
  }

  lemma TalkKeeps(e: Env, s: Sys, p: Proc, a: Action)
    requires Inv(e, s) && s.proc == Some(p) && ProcEnabled(e, s, p, a) && (a.Announce? || a.Deliver? || a.Answer?)
    ensures Inv(e, ProcStep(e, s, p, a))
  {
  }

  lemma ControlKeeps(e: Env, s: Sys, p: Proc, a: Action)
    requires Inv(e, s) && s.proc == Some(p) && ProcEnabled(e, s, p, a) && (a.Execute? || a.Flush?)
    ensures Inv(e, ProcStep(e, s, p, a))
  {
  }

  lemma ProcKeeps(e: Env, s: Sys, p: Proc, a: Action)
    requires Hypotheses(e, s) && Inv(e, s) && s.proc == Some(p) && ProcEnabled(e, s, p, a)
    ensures Inv(e, ProcStep(e, s, p, a))
  {
    if a.Reach? {
      ReachKeeps(e, s, p, a);
    } else if a.WriteWatch? {
      WatchKeeps(e, s, p, a);
    } else if a.WriteCursor? {
      CursorKeeps(e, s, p, a);
    } else if a.Fetch? {
      FetchKeeps(e, s, p, a);
    } else if a.Advance? {
      AdvanceKeeps(e, s, p, a);
    } else if a.Check? {
      CheckKeeps(e, s, p, a);
    } else if a.PublishState? {
      StateKeeps(e, s, p);
    } else if a.PublishSweep? {
      SweepKeeps(e, s, p);
    } else if a.Defer? || a.Snapshot? || a.SweepSkip? || a.Sweep? {
      DecideKeeps(e, s, p, a);
    } else if a.Execute? || a.Flush? {
      ControlKeeps(e, s, p, a);
    } else {
      TalkKeeps(e, s, p, a);
    }
  }

  lemma StepKeeps(e: Env, s: Sys, a: Action)
    requires Hypotheses(e, s) && Inv(e, s) && Enabled(e, s, a)
    ensures Inv(e, Step(e, s, a))
  {
    if a.Boot? {
      BootKeeps(e, s);
    } else if a.Tick? {
      TickKeeps(e, s, a.d);
    } else if !a.Crash? {
      ProcKeeps(e, s, s.proc.value, a);
    }
  }

  lemma {:induction false} InvAlways(e: Env, s: Sys, trace: seq<Action>)
    requires Initial(s) && Punctual(e) && NoLoss.First(e, s) != 0
    ensures Inv(e, Exec(e, s, trace))
  {
    if |trace| > 0 {
      var before := Exec(e, s, trace[..|trace| - 1]);
      InvAlways(e, s, trace[..|trace| - 1]);
      NoLoss.InvAlways(e, s, trace[..|trace| - 1]);
      NoLoss.BaseAlways(e, s, trace[..|trace| - 1]);
      if Enabled(e, before, trace[|trace| - 1]) {
        StepKeeps(e, before, trace[|trace| - 1]);
      }
    }
  }

  // ---- On the wire -------------------------------------------------------------------------------------

  /** The ledgers of the state envelopes in a log, in order. */
  function StateLedgers(log: seq<Envelope>): seq<u32> {
    if |log| == 0 then []
    else
      var init, last := StateLedgers(log[..|log| - 1]), log[|log| - 1];
      if last.kind == "state" then init + [last.ledgerSeq] else init
  }

  function Ledgers(stamps: seq<Stamp>): seq<u32> {
    seq(|stamps|, i requires 0 <= i < |stamps| => stamps[i].ledger)
  }

  lemma Logged(log: seq<Envelope>, env: Envelope)
    ensures StateLedgers(log + [env]) == StateLedgers(log) + if env.kind == "state" then [env.ledgerSeq] else []
  {
    assert (log + [env])[..|log|] == log;
  }

  predicate NoCommands(trace: seq<Action>) {
    forall i :: 0 <= i < |trace| ==> !trace[i].Execute?
  }

  /** Without commands every state envelope is an activity or sweep snapshot, so it has a stamp. */
  ghost predicate AllStamped(s: Sys) {
    && StateLedgers(s.hist.log) == Ledgers(s.hist.stamps)
    && (s.proc.Some? ==>
          var pc := s.proc.value.pc;
          && !pc.Answering?
          && (pc.Snapshots? ==> Stamped(pc.changes, s.proc.value))
          && (pc.SweepSnapshots? ==> Stamped(pc.changes, s.proc.value)))
  }

  lemma SaidStamped(e: Env, s: Sys, p: Proc, a: Action)
    requires AllStamped(s) && s.proc == Some(p) && ProcEnabled(e, s, p, a)
    requires a.Announce? || a.Deliver?
    ensures AllStamped(ProcStep(e, s, p, a))
  {
    if a.Announce? && p.pc.i < |p.gaps| {
      Logged(s.hist.log, GapEnvelope(e.name, p.gaps[p.pc.i]));
    } else if a.Deliver? && p.pc.i < |p.work.facts| {
      Logged(s.hist.log, FactEnvelope(e, p, p.pc.i));
    }
  }

  lemma StateStamped(e: Env, s: Sys, p: Proc)
    requires AllStamped(s) && s.proc == Some(p) && ProcEnabled(e, s, p, PublishState)
    ensures AllStamped(StateStep(e, s, p))
  {
    if p.pc.i < |p.pc.changes| {
      Logged(s.hist.log, FromStateChange(e.name, p.pc.changes[p.pc.i]));
      var t := StateStep(e, s, p);
      assert Ledgers(t.hist.stamps) == Ledgers(s.hist.stamps) + [p.current];
      assert p.pc.changes[p.pc.i] in p.pc.changes;
    }
  }

  lemma SweepStamped(e: Env, s: Sys, p: Proc)
    requires AllStamped(s) && s.proc == Some(p) && ProcEnabled(e, s, p, PublishSweep)
    ensures AllStamped(SweepStep(e, s, p))
  {
    if p.pc.i < |p.pc.changes| {
      Logged(s.hist.log, FromStateChange(e.name, p.pc.changes[p.pc.i]));
      var t := SweepStep(e, s, p);
      assert Ledgers(t.hist.stamps) == Ledgers(s.hist.stamps) + [p.current];
      assert p.pc.changes[p.pc.i] in p.pc.changes;
    }
  }

  lemma OtherStamped(e: Env, s: Sys, a: Action)
    requires AllStamped(s) && Enabled(e, s, a)
    requires !a.Announce? && !a.Deliver? && !a.PublishState? && !a.PublishSweep? && !a.Execute? && !a.WriteCursor?
    ensures AllStamped(Step(e, s, a))
  {
  }

  lemma SavedStamped(e: Env, s: Sys, p: Proc, a: Action)
    requires AllStamped(s) && s.proc == Some(p) && ProcEnabled(e, s, p, a) && a.WriteCursor?
    ensures AllStamped(ProcStep(e, s, p, a))
  {
  }

  lemma {:induction false} AlwaysStamped(e: Env, s: Sys, trace: seq<Action>)
    requires Initial(s) && NoCommands(trace)
    ensures AllStamped(Exec(e, s, trace))
  {
    if |trace| == 0 {
      assert Ledgers([]) == [];
    } else {
      var n := |trace| - 1;
      var before, a := Exec(e, s, trace[..n]), trace[n];
      AlwaysStamped(e, s, trace[..n]);
      if Enabled(e, before, a) {
        if a.Announce? || a.Deliver? {
          SaidStamped(e, before, before.proc.value, a);
        } else if a.PublishState? {
          StateStamped(e, before, before.proc.value);
        } else if a.PublishSweep? {
          SweepStamped(e, before, before.proc.value);
        } else if a.WriteCursor? {
          SavedStamped(e, before, before.proc.value, a);
        } else {
          OtherStamped(e, before, a);
        }
      }
    }
  }

  // ---- The theorem -------------------------------------------------------------------------------------

  /**
   Given punctual close times and an explicit start, the stamps of a whole run
   never regress and none was old when it was decided; without commands these are
   the stamps of all state envelopes ever delivered.
   */
  lemma StampsNeverRegress(e: Env, s: Sys, trace: seq<Action>)
    requires Initial(s) && Punctual(e) && NoLoss.First(e, s) != 0
    ensures Ordered(Exec(e, s, trace).hist.stamps) && Fresh(Exec(e, s, trace).hist.stamps)
    ensures NoCommands(trace) ==>
      var ledgers := StateLedgers(Exec(e, s, trace).hist.log);
      forall i, j :: 0 <= i < j < |ledgers| ==> ledgers[i] <= ledgers[j]
  {
    InvAlways(e, s, trace);
    if NoCommands(trace) {
      AlwaysStamped(e, s, trace);
    }
  }
}
