/**
 One id, one event. Whatever is ever delivered as an event or a deposit comes from
 a served ledger, so two deliveries under one message id, in one run or in two,
 carry the same raw event from the same transaction of the same ledger.
 */
module Identity {
  import opened Base
  import opened Ids
  import opened Facts
  import opened Envelopes
  import opened Machine
  import opened Replay
  import NoLoss

  /** f is a fact of ledger n for some set of tracked escrows. */
  ghost predicate FactOf(e: Env, n: u32, tracked: set<Id>, f: Fact) {
    var r := Detected(e.serve(0, n).txs, n, e.serve(0, n).closedAt, tracked);
    r.Some? && f in r.value
  }

  ghost predicate Sourced(e: Env, env: Envelope) {
    exists n: u32, tracked: set<Id>, f: Fact :: FactOf(e, n, tracked, f) && env == FromEscrowEvent(e.name, f)
  }

  predicate IsFact(env: Envelope) {
    env.kind == "event" || env.kind == "deposit"
  }

  ghost predicate AllSourced(e: Env, log: seq<Envelope>) {
    forall env :: env in log && IsFact(env) ==> Sourced(e, env)
  }

  lemma DeliverSourced(e: Env, s: Sys, p: Proc)
    requires OneHistory(e) && NoLoss.Inv(e, s) && AllSourced(e, s.hist.log) && s.proc == Some(p) && p.pc.Delivering?
    ensures AllSourced(e, DeliverStep(e, s, p).hist.log)
  {
    if p.pc.i < |p.work.facts| {
      var n, f := p.current, p.work.facts[p.pc.i];
      assert p.work.meta == e.serve(0, n);
      var after := Discovered(p.work.before, p.work.meta.txs, e.approved).value;
      assert FactOf(e, n, after.tracked, f);
      assert Sourced(e, FromEscrowEvent(e.name, f));
    }
  }

  lemma OthersSourced(e: Env, s: Sys, p: Proc, a: Action)
    requires AllSourced(e, s.hist.log) && s.proc == Some(p) && ProcEnabled(e, s, p, a)
    requires a.Announce? || a.PublishState? || a.PublishSweep? || a.Answer?
    ensures AllSourced(e, ProcStep(e, s, p, a).hist.log)
  {
  }

  lemma OnlyPublishingSpeaks(e: Env, s: Sys, a: Action)
    requires Enabled(e, s, a)
    requires !a.Announce? && !a.Deliver? && !a.PublishState? && !a.PublishSweep? && !a.Answer?
    ensures Step(e, s, a).hist.log == s.hist.log
  {
  }

  lemma {:induction false} AlwaysSourced(e: Env, s: Sys, trace: seq<Action>)
    requires Initial(s) && OneHistory(e)
    ensures AllSourced(e, Exec(e, s, trace).hist.log)
  {
    if |trace| > 0 {
      var n := |trace| - 1;
      var before, a := Exec(e, s, trace[..n]), trace[n];
      AlwaysSourced(e, s, trace[..n]);
      NoLoss.InvAlways(e, s, trace[..n]);
      if Enabled(e, before, a) {
        if a.Deliver? {
          DeliverSourced(e, before, before.proc.value);
        } else if a.Announce? || a.PublishState? || a.PublishSweep? || a.Answer? {
          OthersSourced(e, before, before.proc.value, a);
        } else {
          OnlyPublishingSpeaks(e, before, a);
        }
      }
    }
  }

  /**
   Transactions are told apart by their printed hashes over the whole chain, and no transaction
   overflows its counter.
   */
  ghost predicate WellHashed(e: Env) {
    && (forall n: u32 :: HashesDistinct(e.serve(0, n).txs) && CountersFit(e.serve(0, n).txs))
    && (forall m: u32, n: u32 :: m != n ==> Apart(e.serve(0, m).txs, e.serve(0, n).txs))
    && (forall n: u32, tx :: tx in e.serve(0, n).txs ==> HexHash(tx.hash))
  }

  predicate Apart(a: seq<Tx>, b: seq<Tx>) {
    forall x, y :: x in a && y in b ==> x.hash != y.hash
  }

  lemma HashesApart(e: Env, m: u32, n: u32, x: Tx, y: Tx)
    requires WellHashed(e) && m != n && x in e.serve(0, m).txs && y in e.serve(0, n).txs
    ensures x.hash != y.hash
  {
    assert Apart(e.serve(0, m).txs, e.serve(0, n).txs);
  }

  /** The message id of a fact determines the ledger, the transaction and the event. */
  lemma IdDeterminesFact(e: Env, m: u32, s: set<Id>, f: Fact, n: u32, t: set<Id>, g: Fact)
    requires WellHashed(e) && FactOf(e, m, s, f) && FactOf(e, n, t, g)
    requires NewMessageID(f.txHash, f.eventIndex) == NewMessageID(g.txHash, g.eventIndex)
    ensures SamePayload(f, g)
  {
    var txs, us := e.serve(0, m).txs, e.serve(0, n).txs;
    var i, k := Origin(txs, m, e.serve(0, m).closedAt, s, f);
    var j, l := Origin(us, n, e.serve(0, n).closedAt, t, g);
    assert txs[i] in txs && us[j] in us;
    PrintedFormsAreColonFree(f.txHash);
    PrintedFormsAreColonFree(g.txHash);
    EventIdsInjective(f.txHash, f.eventIndex, g.txHash, g.eventIndex);
    if m != n {
      HashesApart(e, m, n, txs[i], us[j]);
    }
    IdDeterminesPayload(txs, m, e.serve(0, m).closedAt, s, t, f, g);
  }

  /**
   Over any two runs of one deployment, commands and crashes included: two event or
   deposit deliveries under one message id carry the same raw event, ledger, close
   time, transaction and index.
   */
  lemma OneIdOneEvent(e: Env, s: Sys, t: Sys, first: seq<Action>, second: seq<Action>, x: Envelope, y: Envelope)
    requires Initial(s) && Initial(t) && OneHistory(e) && WellHashed(e)
    requires x in Exec(e, s, first).hist.log && y in Exec(e, t, second).hist.log && IsFact(x) && IsFact(y)
    requires x.messageID == y.messageID
    ensures x.raw == y.raw && x.ledgerSeq == y.ledgerSeq && x.closedAt == y.closedAt
    ensures x.txHash == y.txHash && x.txIndex == y.txIndex && x.eventIndex == y.eventIndex
  {
    AlwaysSourced(e, s, first);
    AlwaysSourced(e, t, second);
    var m: u32, a: set<Id>, f: Fact :| FactOf(e, m, a, f) && x == FromEscrowEvent(e.name, f);
    var n: u32, b: set<Id>, g: Fact :| FactOf(e, n, b, g) && y == FromEscrowEvent(e.name, g);
    IdDeterminesFact(e, m, a, f, n, b, g);
  }

  // ---- All kinds of envelopes -------------------------------------------------------------------------

  /** An envelope's id is made of its own fields, as its kind prescribes. */
  predicate SelfNamed(name: string, env: Envelope) {
    && env.network == name
    && if IsFact(env) then env.messageID == NewMessageID(env.txHash, env.eventIndex)
       else if env.kind == "state" then env.messageID == NewStateMessageID(env.contractID, env.ledgerSeq)
       else
         && env.kind == "control" && env.ledgerSeq == Add32(env.gapTo, 1)
         && env.messageID == NewGapMessageID(env.network, env.gapFrom, env.gapTo)
  }

  predicate AllSelfNamed(e: Env, log: seq<Envelope>) {
    forall env :: env in log ==> SelfNamed(e.name, env)
  }

  lemma PublishingNames(e: Env, s: Sys, p: Proc, a: Action)
    requires AllSelfNamed(e, s.hist.log) && s.proc == Some(p) && ProcEnabled(e, s, p, a)
    requires a.Announce? || a.Deliver? || a.PublishState? || a.PublishSweep? || a.Answer?
    ensures AllSelfNamed(e, ProcStep(e, s, p, a).hist.log)
  {
    if a.Announce? {
      if p.pc.i < |p.gaps| {
        var g := p.gaps[p.pc.i];
        assert SelfNamed(e.name, GapEnvelope(e.name, g));
      }
    } else if a.Deliver? {
      if p.pc.i < |p.work.facts| {
        var f := p.work.facts[p.pc.i];
        assert SelfNamed(e.name, FromEscrowEvent(e.name, f));
      }
    } else if p.pc.i < |p.pc.changes| {
      var sc := p.pc.changes[p.pc.i];
      assert SelfNamed(e.name, FromStateChange(e.name, sc));
    }
  }

  lemma {:induction false} AlwaysSelfNamed(e: Env, s: Sys, trace: seq<Action>)
    requires Initial(s)
    ensures AllSelfNamed(e, Exec(e, s, trace).hist.log)
  {
    if |trace| > 0 {
      var n := |trace| - 1;
      var before, a := Exec(e, s, trace[..n]), trace[n];
      AlwaysSelfNamed(e, s, trace[..n]);
      if Enabled(e, before, a) {
        if a.Announce? || a.Deliver? || a.PublishState? || a.PublishSweep? || a.Answer? {
          PublishingNames(e, before, before.proc.value, a);
        } else {
          OnlyPublishingSpeaks(e, before, a);
        }
      }
    }
  }

  /** The printed forms the ids are built from: hex hashes, contract addresses, a network name without a colon. */
  predicate Printed(env: Envelope) {
    && ColonFree(env.network)
    && (IsFact(env) ==> HexHash(env.txHash))
    && (env.kind == "state" ==> ContractAddress(env.contractID))
  }

  /**
   Over any two runs: envelopes under one message id are of one family and about one
   subject, the same event, the same escrow at the same ledger, or the same gap.
   */
  lemma OneIdOneSubject(e: Env, s: Sys, t: Sys, first: seq<Action>, second: seq<Action>, x: Envelope, y: Envelope)
    requires Initial(s) && Initial(t)
    requires x in Exec(e, s, first).hist.log && y in Exec(e, t, second).hist.log && Printed(x) && Printed(y)
    requires x.messageID == y.messageID
    ensures IsFact(x) == IsFact(y) && (x.kind == "state") == (y.kind == "state")
    ensures IsFact(x) ==> x.txHash == y.txHash && x.eventIndex == y.eventIndex
    ensures x.kind == "state" ==> x.contractID == y.contractID && x.ledgerSeq == y.ledgerSeq
    ensures !IsFact(x) && x.kind != "state" ==>
      x.gapFrom == y.gapFrom && x.gapTo == y.gapTo && x.ledgerSeq == y.ledgerSeq
  {
    AlwaysSelfNamed(e, s, first);
    AlwaysSelfNamed(e, t, second);
    SameFamily(e.name, x, y);
    SameSubject(e.name, x, y);
  }

  lemma SameFamily(name: string, x: Envelope, y: Envelope)
    requires SelfNamed(name, x) && SelfNamed(name, y) && Printed(x) && Printed(y) && x.messageID == y.messageID
    ensures IsFact(x) == IsFact(y) && (x.kind == "state") == (y.kind == "state")
  {
    FirstLetter(name, x);
    FirstLetter(name, y);
  }

  /** The first letter of an id tells its family. */
  lemma FirstLetter(name: string, x: Envelope)
    requires SelfNamed(name, x) && Printed(x)
    ensures |x.messageID| > 0
    ensures IsFact(x) <==> x.messageID[0] != 'C' && x.messageID[0] != 'g'
    ensures x.kind == "state" <==> x.messageID[0] == 'C'
  {
  }

  lemma SameSubject(name: string, x: Envelope, y: Envelope)
    requires SelfNamed(name, x) && SelfNamed(name, y) && Printed(x) && Printed(y) && x.messageID == y.messageID
    requires IsFact(x) == IsFact(y) && (x.kind == "state") == (y.kind == "state")
    ensures IsFact(x) ==> x.txHash == y.txHash && x.eventIndex == y.eventIndex
    ensures x.kind == "state" ==> x.contractID == y.contractID && x.ledgerSeq == y.ledgerSeq
    ensures !IsFact(x) && x.kind != "state" ==>
      x.gapFrom == y.gapFrom && x.gapTo == y.gapTo && x.ledgerSeq == y.ledgerSeq
  {
    if IsFact(x) {
      PrintedFormsAreColonFree(x.txHash);
      PrintedFormsAreColonFree(y.txHash);
      EventIdsInjective(x.txHash, x.eventIndex, y.txHash, y.eventIndex);
    } else if x.kind == "state" {
      PrintedFormsAreColonFree(x.contractID);
      PrintedFormsAreColonFree(y.contractID);
      StateIdsInjective(x.contractID, x.ledgerSeq, y.contractID, y.ledgerSeq);
    } else {
      GapIdsInjective(x.network, x.gapFrom, x.gapTo, y.network, y.gapFrom, y.gapTo);
    }
  }
}
