/**
 Gap notices. A process takes up a ledger only after every gap on record has been
 announced: a crash between recording a gap and announcing it repeats the notice,
 it never loses it.
 */
module Notices {
  import opened Base
  import opened StateStore
  import opened Envelopes
  import opened Machine
  import NoLoss

  ghost predicate Told(e: Env, log: seq<Envelope>, gaps: seq<Gap>, n: nat) {
    forall i :: 0 <= i < n && i < |gaps| ==> GapEnvelope(e.name, gaps[i]) in log
  }

  /** Before an endpoint is adopted nothing is promised; while announcing, the first ones are out; then all are. */
  ghost predicate Inv(e: Env, s: Sys) {
    s.proc.Some? ==>
      var p := s.proc.value;
      match p.pc
      case Connecting => true
      case Saving(_, _, _, next) => next.Adopt? || Told(e, s.hist.log, p.gaps, |p.gaps|)
      case Announcing(i) => Told(e, s.hist.log, p.gaps, i)
      case _ => Told(e, s.hist.log, p.gaps, |p.gaps|)
  }

  lemma AnnounceKeeps(e: Env, s: Sys, p: Proc, a: Action)
    requires Inv(e, s) && s.proc == Some(p) && ProcEnabled(e, s, p, a) && a.Announce?
    ensures Inv(e, ProcStep(e, s, p, a))
  {
  }

  lemma SaveKeeps(e: Env, s: Sys, p: Proc, a: Action)
    requires Inv(e, s) && s.proc == Some(p) && ProcEnabled(e, s, p, a) && (a.Reach? || a.WriteWatch? || a.WriteCursor?)
    ensures Inv(e, ProcStep(e, s, p, a))
  {
  }

  /** Deliveries only add to the log, and nothing else touches the gaps. */
  lemma PlainKeeps(e: Env, s: Sys, t: Sys)
    requires Inv(e, s) && s.proc.Some? && t.proc.Some?
    requires forall x :: x in s.hist.log ==> x in t.hist.log
    requires var p, q := s.proc.value, t.proc.value;
      && q.gaps == p.gaps && !p.pc.Connecting? && !p.pc.Saving? && !p.pc.Announcing?
      && !q.pc.Connecting? && !q.pc.Announcing?
    ensures Inv(e, t)
  {
  }

  lemma PublishKeeps(e: Env, s: Sys, p: Proc, a: Action)
    requires Inv(e, s) && s.proc == Some(p) && ProcEnabled(e, s, p, a)
    requires a.Deliver? || a.PublishState? || a.PublishSweep? || a.Answer?
    ensures Inv(e, ProcStep(e, s, p, a))
  {
    PlainKeeps(e, s, ProcStep(e, s, p, a));
  }

  lemma OtherKeeps(e: Env, s: Sys, p: Proc, a: Action)
    requires Inv(e, s) && s.proc == Some(p) && ProcEnabled(e, s, p, a)
    requires !a.Announce? && !a.Reach? && !a.WriteWatch? && !a.WriteCursor?
    requires !a.Deliver? && !a.PublishState? && !a.PublishSweep? && !a.Answer?
    ensures Inv(e, ProcStep(e, s, p, a))
  {
    PlainKeeps(e, s, ProcStep(e, s, p, a));
  }

  lemma StepKeeps(e: Env, s: Sys, a: Action)
    requires Inv(e, s) && Enabled(e, s, a)
    ensures Inv(e, Step(e, s, a))
  {
    if !a.Boot? && !a.Tick? && !a.Crash? {
      var p := s.proc.value;
      if a.Announce? {
        AnnounceKeeps(e, s, p, a);
      } else if a.Reach? || a.WriteWatch? || a.WriteCursor? {
        SaveKeeps(e, s, p, a);
      } else if a.Deliver? || a.PublishState? || a.PublishSweep? || a.Answer? {
        PublishKeeps(e, s, p, a);
      } else {
        OtherKeeps(e, s, p, a);
      }
    }
  }

  lemma {:induction false} InvAlways(e: Env, s: Sys, trace: seq<Action>)
    requires Initial(s)
    ensures Inv(e, Exec(e, s, trace))
  {
    if |trace| > 0 {
      var before := Exec(e, s, trace[..|trace| - 1]);
      InvAlways(e, s, trace[..|trace| - 1]);
      if Enabled(e, before, trace[|trace| - 1]) {
        StepKeeps(e, before, trace[|trace| - 1]);
      }
    }
  }

  /** At every loop head each gap on disk has been announced. */
  lemma GapsAnnouncedBeforeLedgers(e: Env, s: Sys, trace: seq<Action>, p: Proc, g: Gap)
    requires Initial(s) && Exec(e, s, trace).proc == Some(p) && p.pc.Head?
    requires g in NoLoss.GapsOf(Exec(e, s, trace).disk)
    ensures GapEnvelope(e.name, g) in Exec(e, s, trace).hist.log
  {
    InvAlways(e, s, trace);
    NoLoss.EvidenceBeforeAdoption(e, s, trace, p);
  }

  // ---- Nothing invalid is ever delivered ------------------------------------------------------------

  ghost predicate AllValid(log: seq<Envelope>) {
    forall env :: env in log ==> Validate(env)
  }

  lemma StepValid(e: Env, s: Sys, a: Action)
    requires AllValid(s.hist.log) && Enabled(e, s, a)
    ensures AllValid(Step(e, s, a).hist.log)
  {
  }

  /** Every envelope a run ever delivers is a valid one. */
  lemma {:induction false} AlwaysValid(e: Env, s: Sys, trace: seq<Action>)
    requires Initial(s)
    ensures AllValid(Exec(e, s, trace).hist.log)
  {
    if |trace| > 0 {
      var n := |trace| - 1;
      AlwaysValid(e, s, trace[..n]);
      if Enabled(e, Exec(e, s, trace[..n]), trace[n]) {
        StepValid(e, Exec(e, s, trace[..n]), trace[n]);
      }
    }
  }

  /** At every loop head all gaps on record are ones the sink accepts. */
  lemma GapsAtHeadAreValid(e: Env, s: Sys, trace: seq<Action>, p: Proc, i: nat)
    requires Initial(s) && Exec(e, s, trace).proc == Some(p) && p.pc.Head? && i < |p.gaps|
    ensures Validate(GapEnvelope(e.name, p.gaps[i]))
  {
    InvAlways(e, s, trace);
    AlwaysValid(e, s, trace);
  }
}
