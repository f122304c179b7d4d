/**
 Everything on the wire is true. Each envelope any run ever delivers says, field by
 field, what the chain, a state read or a gap told the process that delivered it.
 */
module Wire {
  import opened Base
  import opened Ids
  import opened Facts
  import opened StateStore
  import opened Envelopes
  import opened Machine

  /**
   The envelope reports event k of a transaction of the ledger in hand: of kind "event" what a
   tracked escrow emitted, of kind "deposit" a transfer to a tracked escrow by anyone else.
   */
  ghost predicate ReportsEvent(e: Env, p: Proc, tx: Tx, k: nat, env: Envelope) {
    && tx in Served(e, p).txs && tx.successful && Flatten(tx.ops).Some? && k < |Flatten(tx.ops).value|
    && env.ledgerSeq == p.current && env.closedAt == Served(e, p).closedAt
    && env.txHash == tx.hash && env.txIndex == tx.index && env.eventIndex == k % 0x1_0000_0000
    && env.contractID != "" && env.contractID in p.reg.tracked
    && var ev := Flatten(tx.ops).value[k];
       && env.raw == ev.raw
       && (env.kind == "event" ==> OwnEvent(ev, env.contractID, env.eventKind))
       && (env.kind != "event" ==>
             && env.kind == "deposit" && env.eventKind == "token_transfer"
             && IncomingTransfer(ev, p.reg.tracked, env.contractID))
  }

  /** The envelope reports a state that was read for the ledger in hand. */
  predicate ReportsState(e: Env, p: Proc, changes: seq<StateChange>, i: nat, env: Envelope) {
    && i < |changes| && SaysState(e.name, changes[i], env)
    && env.ledgerSeq == p.current && env.closedAt == p.work.meta.closedAt
  }

  /** What an envelope says is what the process that is about to deliver it knows. */
  ghost predicate Truthful(e: Env, s: Sys, env: Envelope) {
    && s.proc.Some? && env.schemaVersion == "1.1" && env.network == e.name
    && var p := s.proc.value;
       match p.pc
       case Delivering(_) => exists tx, k :: ReportsEvent(e, p, tx, k, env)
       case Snapshots(changes, i, _) => ReportsState(e, p, changes, i, env)
       case SweepSnapshots(changes, i, _) => ReportsState(e, p, changes, i, env)
       case Answering(changes, i, _) => ReportsState(e, p, changes, i, env)
       case Announcing(i) => i < |p.gaps| && SaysGap(e.name, p.gaps[i], env)
       case _ => false
  }

  /** What a process about to publish holds in hand: its ledger's own facts, or states stamped with its ledger. */
  ghost predicate Ready(e: Env, p: Proc) {
    match p.pc
    case Delivering(_) =>
      && p.work.meta == Served(e, p)
      && Detected(p.work.meta.txs, p.current, p.work.meta.closedAt, p.reg.tracked) == Some(p.work.facts)
    case Snapshots(changes, _, _) => Stamped(changes, p)
    case SweepSnapshots(changes, _, _) => Stamped(changes, p)
    case Answering(changes, _, _) => Stamped(changes, p)
    case _ => true
  }

  ghost predicate Inv(e: Env, s: Sys) {
    s.proc.Some? ==> Ready(e, s.proc.value)
  }

  lemma PublishKeeps(e: Env, s: Sys, p: Proc, a: Action)
    requires Ready(e, p) && s.proc == Some(p) && ProcEnabled(e, s, p, a)
    requires a.Announce? || a.Deliver? || a.PublishState? || a.PublishSweep? || a.Answer?
    ensures Inv(e, ProcStep(e, s, p, a))
  {
  }

  lemma OtherKeeps(e: Env, s: Sys, p: Proc, a: Action)
    requires Ready(e, p) && s.proc == Some(p) && ProcEnabled(e, s, p, a)
    requires !a.Announce? && !a.Deliver? && !a.PublishState? && !a.PublishSweep? && !a.Answer?
    ensures Inv(e, ProcStep(e, s, p, a))
  {
  }

  lemma StepKeeps(e: Env, s: Sys, a: Action)
    requires Inv(e, s) && Enabled(e, s, a)
    ensures Inv(e, Step(e, s, a))
  {
    if !a.Boot? && !a.Tick? && !a.Crash? {
      if a.Announce? || a.Deliver? || a.PublishState? || a.PublishSweep? || a.Answer? {
        PublishKeeps(e, s, s.proc.value, a);
      } else {
        OtherKeeps(e, s, s.proc.value, a);
      }
    }
  }

  lemma {:induction false} InvAlways(e: Env, s: Sys, trace: seq<Action>)
    requires Initial(s)
    ensures Inv(e, Exec(e, s, trace))
  {
    if |trace| > 0 {
      var before := Exec(e, s, trace[..|trace| - 1]);
      InvAlways(e, s, trace[..|trace| - 1]);
      if Enabled(e, before, trace[|trace| - 1]) {
        StepKeeps(e, before, trace[|trace| - 1]);
      }
    }
  }

  lemma FactIsTrue(e: Env, s: Sys, p: Proc)
    requires Inv(e, s) && s.proc == Some(p) && p.pc.Delivering? && p.pc.i < |p.work.facts|
    ensures Truthful(e, s, FactEnvelope(e, p, p.pc.i))
  {
    var f := p.work.facts[p.pc.i];
    var env := FactEnvelope(e, p, p.pc.i);
    assert SaysFact(e.name, f, env);
    DetectedIff(p.work.meta.txs, p.current, p.work.meta.closedAt, p.reg.tracked, f);
    var tx, k :| tx in p.work.meta.txs && Tells(tx, p.current, p.work.meta.closedAt, p.reg.tracked, k, f);
    assert "event"[0] != "deposit"[0];
    assert ReportsEvent(e, p, tx, k, env);
  }

  lemma GapIsTrue(e: Env, s: Sys, p: Proc)
    requires s.proc == Some(p) && p.pc.Announcing? && p.pc.i < |p.gaps|
    ensures Truthful(e, s, GapEnvelope(e.name, p.gaps[p.pc.i]))
  {
  }

  lemma StateIsTrue(e: Env, s: Sys, p: Proc)
    requires Inv(e, s) && s.proc == Some(p) && (p.pc.Snapshots? || p.pc.SweepSnapshots? || p.pc.Answering?)
    requires p.pc.i < |p.pc.changes|
    ensures Truthful(e, s, FromStateChange(e.name, p.pc.changes[p.pc.i]))
  {
  }

  /** What a step adds to the deliveries, if anything, is true. */
  lemma OneMoreIsTrue(e: Env, s: Sys, a: Action, env: Envelope)
    requires Inv(e, s) && Enabled(e, s, a) && env in Step(e, s, a).hist.log && env !in s.hist.log
    ensures Truthful(e, s, env)
  {
    if a.Deliver? {
      FactIsTrue(e, s, s.proc.value);
    } else if a.Announce? {
      GapIsTrue(e, s, s.proc.value);
    } else if a.PublishState? || a.PublishSweep? || a.Answer? {
      StateIsTrue(e, s, s.proc.value);
    }
  }

  /**
   Every envelope on the wire after any run was true when it was delivered: an event was emitted,
   or a transfer received, by its contract, tracked then, at that position of that transaction of that
   ledger; a state was read for that escrow at that ledger; a gap was recorded for that range.
   */
  lemma {:induction false} EveryDeliveryIsTrue(e: Env, s: Sys, trace: seq<Action>, env: Envelope) returns (m: nat)
    requires Initial(s) && env in Exec(e, s, trace).hist.log
    ensures m < |trace| && Truthful(e, Exec(e, s, trace[..m]), env)
  {
    var n := |trace| - 1;
    var before := Exec(e, s, trace[..n]);
    if env in before.hist.log {
      m := EveryDeliveryIsTrue(e, s, trace[..n], env);
      assert trace[..n][..m] == trace[..m];
    } else {
      InvAlways(e, s, trace[..n]);
      OneMoreIsTrue(e, before, trace[n], env);
      m := n;
    }
  }
}
