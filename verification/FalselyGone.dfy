/**
 A run in which an escrow that is on chain is announced as gone: it was deferred while
 the process caught up, a command removed it, and the snapshot at the tip asked about it.
 */
module FalselyGone {
  import opened Base
  import opened Ids
  import opened Registry
  import opened Facts
  import opened Envelopes
  import opened Catchup
  import opened Machine
  import opened Passages
  import Delivery
  import Detector
  import DetectorLemmas
  import DetectorTheorems
  import Nodes
  import Poison
  import Witness

  /** When the first ledger is old enough to be caught up on. */
  const LATER: int := CATCH_UP_MIN_AGE + 1

  function Talk(id: Id, raw: string): Event {
    Event(Some(id), Some([Sym("x")]), raw)
  }

  function Talking(id: Id, raw: string): Tx {
    Tx(true, "a", 1, Some([]), [Some([Talk(id, raw)])])
  }

  /** The seeded escrow emits an event in the first, old ledger; the second one is fresh and empty. */
  function Late(id: Id, raw: string): Env {
    Env("network", "net", {}, [id], 1, 0, false,
        (k: nat, n: u32) => Ledger(n + 1, n, if n == 1 then 0 else LATER, if n == 1 then [Talking(id, raw)] else []))
  }

  /** The one fact of the first ledger. */
  function Said(id: Id, raw: string): Fact {
    Fact(EscrowEvent, id, "x", 0, "a", 1, 1, 0, raw)
  }

  lemma FirstFacts(id: Id, raw: string)
    requires id != "" && raw != ""
    ensures ProcessLedger(Members({id}, {}), [Talking(id, raw)], {}, 1, 0)
         == Some(Processed(Members({id}, {}), [Said(id, raw)]))
    ensures Validate(FromEscrowEvent("net", Said(id, raw)))
  {
    var tx, ev := Talking(id, raw), Talk(id, raw);
    assert tx.ops[..0] == [] && [] + [ev] == [ev];
    assert Flatten(tx.ops) == Some([ev]);
    Poison.OnlyTransaction(tx, Members({id}, {}), {}, 1, 0, {id});
    assert FactsAmong(tx, 1, 0, [ev], 0, {id}) == [];
    assert FactsAmong(tx, 1, 0, [ev], 1, {id}) == [Said(id, raw)];
  }

  /** Through the first ledger, catching up: its escrow is deferred. */
  lemma FirstDeferred(id: Id, raw: string) returns (s: Sys, p: Proc)
    requires id != "" && raw != ""
    ensures Reaches(Late(id, raw), Witness.EMPTY, s) && s.proc == Some(p) && p.pc == Draining(false)
    ensures p.current == 1 && p.pending == {id} && p.reg == Members({id}, {}) && p.gaps == [] && p.expected == 0
    ensures s.now == LATER
  {
    var e := Late(id, raw);
    s, p := Witness.FirstHead(e, id);
    Waits(e, Witness.EMPTY, s, LATER);
    s := s.(now := LATER);
    s, p := FirstFetch(id, raw, s, p);
    Then(e, Witness.EMPTY, s, Defer);
    p := Deferred(p);
    s := Run(s, p);
    Then(e, Witness.EMPTY, s, SweepSkip);
    p := p.(pc := Checking(true));
    s := Run(s, p);
    Then(e, Witness.EMPTY, s, Check);
    p := Checked(e, p);
    s := Run(s, p);
  }

  lemma FirstFetch(id: Id, raw: string, s: Sys, p: Proc) returns (t: Sys, q: Proc)
    requires id != "" && raw != "" && Reaches(Late(id, raw), Witness.EMPTY, s) && s.proc == Some(p) && p.pc == Head
    requires p.current == 1 && p.expected == 0 && p.reg == Members({id}, {}) && p.gaps == [] && p.pending == {}
    requires p.lastCheckpoint == 0 && s.now == LATER
    ensures Reaches(Late(id, raw), Witness.EMPTY, t) && t.proc == Some(q) && q.pc == Deciding && t.now == LATER
    ensures q.current == 1 && q.reg == p.reg && q.gaps == [] && q.pending == {} && q.expected == 0
    ensures q.lastCheckpoint == 0 && Active(q.work.facts) == {id} && q.work.meta.closedAt == 0
  {
    var e := Late(id, raw);
    FirstFacts(id, raw);
    Then(e, Witness.EMPTY, s, Fetch);
    t := FetchStep(e, s, p);
    q := t.proc.value;
    TellsFirst(id, raw, t, q);
    assert Said(id, raw) in q.work.facts;
    q := q.(pc := Deciding);
    t := Run(t.(hist := Logged(t, Delivery.Events(e.name, q.work.facts, 1))), q);
  }

  lemma TellsFirst(id: Id, raw: string, s: Sys, p: Proc)
    requires id != "" && raw != "" && Reaches(Late(id, raw), Witness.EMPTY, s) && s.proc == Some(p)
    requires p.pc == Delivering(0) && p.work.facts == [Said(id, raw)]
    ensures Reaches(Late(id, raw), Witness.EMPTY,
                    Run(s.(hist := Logged(s, Delivery.Events("net", p.work.facts, 1))), p.(pc := Deciding)))
  {
    FirstFacts(id, raw);
    AllTold(Late(id, raw), Witness.EMPTY, s, p);
  }

  /** A command removes it, the removal is saved, and the next ledger is fresh. */
  lemma AtTheTip(id: Id, raw: string) returns (s: Sys, p: Proc)
    requires id != "" && raw != ""
    ensures Reaches(Late(id, raw), Witness.EMPTY, s) && s.proc == Some(p) && p.pc == Deciding && s.now == LATER
    ensures Asking(p) == {id} && p.reg.tracked == {} && p.current == 2 && p.work.meta.closedAt == LATER
  {
    var e := Late(id, raw);
    s, p := NextHead(id, raw);
    s, p := Witness.Fetching(e, s, p);
    AllTold(e, Witness.EMPTY, s, p);
    p := p.(pc := Deciding);
    s := Run(s.(hist := Logged(s, [])), p);
  }

  lemma NextHead(id: Id, raw: string) returns (s: Sys, p: Proc)
    requires id != "" && raw != ""
    ensures Reaches(Late(id, raw), Witness.EMPTY, s) && s.proc == Some(p) && p.pc == Head && s.now == LATER
    ensures p.current == 2 && p.pending == {id} && p.reg.tracked == {} && p.expected == 0
  {
    var e := Late(id, raw);
    s, p := FirstDeferred(id, raw);
    s, p := Witness.Removing(e, s, p, id);
    s, p := Saves(e, s, p);
    Then(e, Witness.EMPTY, s, Advance);
    p := p.(current := 2, pc := Head);
    s := Run(s, p);
  }

  lemma Saves(e: Env, s: Sys, p: Proc) returns (t: Sys, q: Proc)
    requires Reaches(e, Witness.EMPTY, s) && s.proc == Some(p) && p.pc == Draining(true)
    ensures Reaches(e, Witness.EMPTY, t) && t.proc == Some(q) && t.now == s.now
    ensures q == p.(cache := q.cache, pc := Draining(false))
  {
    Then(e, Witness.EMPTY, s, Flush);
    var saving := p.(pc := Saving(p.current, p.lastHash, false, Resume));
    var u := Run(s, saving);
    SaveCompletes(e, Witness.EMPTY, u, saving);
    t := Written(e, u, saving);
    q := t.proc.value;
  }

  /** Asked about one escrow it does not track, an honest and reliable node makes the detector report it gone. */
  lemma OneGone(id: Id, chain: DetectorTheorems.Chain, isAddress: string -> bool, ledger: u32, closedAt: int)
    requires isAddress(id)
    ensures Detector.FetchOf(Nodes.NEW, Nodes.Node(chain), isAddress,
                             Detector.Request({}, [id], ledger, closedAt, 0)).changes
         == Some([Detector.Removal(id, ledger, closedAt)])
  {
    var q := Detector.Request({}, [id], ledger, closedAt, 0);
    Nodes.NodeIsHonest(chain);
    DetectorTheorems.ReliableFetch(Nodes.NEW, Nodes.Node(chain), isAddress, q);
    DetectorTheorems.HonestFetch(Nodes.NEW, Nodes.Node(chain), isAddress, q, chain);
    var out := Detector.FetchOf(Nodes.NEW, Nodes.Node(chain), isAddress, q).changes.value;
    assert DetectorTheorems.Judged(isAddress, [id]) == {id};
    assert DetectorTheorems.Served(out, map[], isAddress, q, chain, id);
    OnlyOne(out, Detector.Removal(id, ledger, closedAt));
  }

  lemma OnlyOne(out: seq<StateChange>, c: StateChange)
    requires DetectorLemmas.Strict(out) && c in out && forall d :: d in out ==> d == c
    ensures out == [c]
  {
    assert forall i :: 0 <= i < |out| ==> out[i] in out;
    LessIrreflexive(c.escrow);
    assert !(|out| > 1 && Less(out[0].escrow, out[1].escrow));
  }

  /** The announcement goes out although the escrow is on chain. */
  lemma AnnouncedAlthoughOnChain(id: Id, raw: string, entry: DetectorTheorems.Stored, isAddress: string -> bool)
      returns (s: Sys, p: Proc, t: Sys)
    requires id != "" && raw != "" && isAddress(id)
    ensures var e, chain := Late(id, raw), map[Detector.Candidate(id, Detector.VecPersistent) := entry];
            var q := Detector.Request(p.reg.tracked, [id], p.current, p.work.meta.closedAt, 0);
            var gone := Detector.Removal(id, p.current, p.work.meta.closedAt);
      && Reaches(e, Witness.EMPTY, s) && s.proc == Some(p) && p.pc.Deciding? && Asking(p) == {id}
      && DetectorTheorems.OnChain(chain, id)
      && DetectorTheorems.Honest(Nodes.Node(chain), chain) && DetectorTheorems.Reliable(Nodes.Node(chain))
      && Detector.FetchOf(Nodes.NEW, Nodes.Node(chain), isAddress, q).changes == Some([gone])
      && Reaches(e, Witness.EMPTY, t) && FromStateChange(e.name, gone) in t.hist.log
  {
    var e, chain := Late(id, raw), map[Detector.Candidate(id, Detector.VecPersistent) := entry];
    s, p := AtTheTip(id, raw);
    OneGone(id, chain, isAddress, p.current, p.work.meta.closedAt);
    Nodes.NodeIsHonest(chain);
    assert Detector.Candidate(id, Detector.VecPersistent) in chain;
    t := Announces(e, s, p, Detector.Removal(id, p.current, p.work.meta.closedAt));
  }

  lemma Announces(e: Env, s: Sys, p: Proc, gone: StateChange) returns (t: Sys)
    requires Reaches(e, Witness.EMPTY, s) && s.proc == Some(p) && p.pc == Deciding
    requires !CatchingUp(s.now, p.work.meta.closedAt) && Validate(FromStateChange(e.name, gone))
    requires gone.ledger == p.current && gone.closedAt == p.work.meta.closedAt
    ensures Reaches(e, Witness.EMPTY, t) && FromStateChange(e.name, gone) in t.hist.log
  {
    Then(e, Witness.EMPTY, s, Snapshot([gone]));
    var q := Snapped(s, p, [gone]);
    var u := Run(s, q);
    Then(e, Witness.EMPTY, u, PublishState);
    t := StateStep(e, u, q);
  }
}
